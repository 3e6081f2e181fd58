/**
 * Running tasks (unfurl/job.py): the change-id counter and the `workDone`
 * registry of the runner, the bookkeeping of a finished task on itself and
 * its target instance, the "should run" and "can't run" checks, the dispatch
 * of `runTask` over what a configurator yields, and child jobs.
 *
 * A configurator is abstracted as a `Behaviour`: the answers its checks give
 * and the finite script of steps its generator goes through. Each step is
 * the change set `commitChanges` records for that `send` and the response
 * the generator yields.
 */
module Job {
  import opened Wrappers
  import opened Values
  import opened Support
  import opened Configurator
  import opened Options

  /** `Job.MAX_NESTED_SUBTASKS` */
  const MaxNestedSubtasks: nat := 100

  /** `mergeDicts`, which is not part of this model. */
  type Merge = (map<string, Value>, map<string, Value>) -> map<string, Value>

  /** The fields of a target instance that a finished task updates. */
  class Instance {
    const name: string
    var localStatus: Option<Status>
    var lastConfigChange: Option<int>
    var lastStateChange: Option<int>

    constructor (name: string)
      ensures this.name == name
      ensures localStatus == None && lastConfigChange == None && lastStateChange == None
    {
      this.name := name;
      localStatus := None;
      lastConfigChange := None;
      lastStateChange := None;
    }

    /** `lastChange is not None`, taken to mean that one of the two change ids is set. */
    predicate HasLastChange()
      reads this
    {
      lastConfigChange.Some? || lastStateChange.Some?
    }
  }

  // ---------------------------------------------------------------------------
  // The status rules of a finished task

  /**
   * `_updateStatus`, reading the status from `readyState`, where
   * `ConfiguratorResult` keeps it: an explicit status is copied; a failure
   * that modified the target makes it `error` for a required task and
   * `degraded` otherwise; a failure that may have modified it makes it
   * `unknown`; anything else leaves it alone.
   */
  function TargetStatus(result: ConfiguratorResult, required: bool, current: Option<Status>): (s: Option<Status>)
    ensures result.readyState.Some? ==> s == result.readyState
    ensures result.readyState.None? && result.success != Some(true) && result.modified == Some(true) ==>
      s == Some(if required then Error else Degraded)
    ensures result.readyState.None? && result.success != Some(true) && result.modified.None? ==> s == Some(Unknown)
    ensures s != current ==> result.readyState.Some? || result.success != Some(true)
    ensures result.readyState.None? && (result.success == Some(true) || result.modified == Some(false)) ==> s == current
  {
    if result.readyState.Some? then result.readyState
    else if result.success == Some(true) then current
    else if result.modified == Some(true) then Some(if required then Error else Degraded)
    else if result.modified.None? then Some(Unknown)
    else current
  }

  /**
   * `_updateStatus` as written: it reads `result.status`, an attribute
   * `ConfiguratorResult` does not have, so it raises for every result.
   */
  function TargetStatusAsWritten(result: ConfiguratorResult, required: bool, current: Option<Status>)
    : (r: Outcome<Option<Status>>)
    ensures r.Raises? && r.error == AttributeError("status")
  {
    var attributes := {"applied", "modified", "readyState", "configChanged", "result", "success", "outputs", "exception"};
    if "status" in attributes then Returns(TargetStatus(result, required, current))
    else Raises(AttributeError("status"))
  }

  /** The status a configurator set explicitly is lost as written and kept by the corrected rule. */
  lemma ExplicitStatusLost(required: bool, current: Option<Status>)
    ensures var r := NewResult(true, Some(true), Some(Ok));
      TargetStatusAsWritten(r, required, current).Raises? && TargetStatus(r, required, current) == Some(Ok)
  {
  }

  /** The task's own status once finished: `ok` iff the result reports success. */
  function FinishedStatus(result: ConfiguratorResult): (s: Status)
    ensures s == Ok <==> result.success == Some(true)
    ensures s == Ok || s == Error
  {
    if result.success == Some(true) then Ok else Error
  }

  /** The result `run` finishes a task with when planning only, as written: `success` is left None. */
  function PretendSuccessAsWritten(): (r: ConfiguratorResult)
    ensures r.applied && r.modified == Some(true) && r.readyState == Some(Ok)
  {
    NewResult(true, Some(true), Some(Ok))
  }

  /** The result of a pretended run, reporting the success it pretends. */
  function PretendSuccess(): (r: ConfiguratorResult)
    ensures r.applied && r.modified == Some(true) && r.readyState == Some(Ok) && r.success == Some(true)
  {
    NewResult(true, Some(true), Some(Ok), success := Some(true))
  }

  /** The local status `finished` gives a pretended success: error as written, ok corrected (reached once the `result.status` lookup of `_updateStatus` is corrected). */
  lemma PretendSuccessRecordedAsError()
    ensures FinishedStatus(PretendSuccessAsWritten()) == Error
    ensures FinishedStatus(PretendSuccess()) == Ok
  {
  }

  /**
   * The change sets of a task merged left to right, as the loop in
   * `finished` does (`accum = mergeDicts(accum, changes.pop(0))`).
   */
  function MergeAll(changes: seq<map<string, Value>>, merge: Merge): map<string, Value>
    requires changes != []
    decreases |changes|
  {
    if |changes| == 1 then changes[0] else merge(MergeAll(changes[..|changes| - 1], merge), changes[|changes| - 1])
  }

  /** A shallow `mergeDicts`: the second dict's keys win. */
  function Override(a: map<string, Value>, b: map<string, Value>): map<string, Value> {
    a + b
  }

  /** With a merge in which the second argument wins, each key takes its value from the last change set holding it. */
  lemma {:induction false} LaterChangesWin(changes: seq<map<string, Value>>, k: string, i: nat)
    requires i < |changes| && k in changes[i] && forall j :: i < j < |changes| ==> k !in changes[j]
    ensures k in MergeAll(changes, Override) && MergeAll(changes, Override)[k] == changes[i][k]
    decreases |changes|
  {
    if |changes| > 1 && i < |changes| - 1 {
      LaterChangesWin(changes[..|changes| - 1], k, i);
    }
  }

  /** The merged change set has exactly the keys of all change sets, when the merge keeps every key. */
  lemma {:induction false} MergedKeys(changes: seq<map<string, Value>>, k: string)
    requires changes != []
    ensures k in MergeAll(changes, Override) <==> exists i :: 0 <= i < |changes| && k in changes[i]
    decreases |changes|
  {
    if |changes| > 1 {
      var init := changes[..|changes| - 1];
      MergedKeys(init, k);
      if exists i :: 0 <= i < |init| && k in init[i] {
        var i :| 0 <= i < |init| && k in init[i];
        assert changes[i] == init[i];
      }
      if exists i :: 0 <= i < |changes| && k in changes[i] {
        var i :| 0 <= i < |changes| && k in changes[i];
        if i < |init| {
          assert init[i] == changes[i];
        }
      }
    }
  }

  // ---------------------------------------------------------------------------
  // Configurators, abstracted

  /** A job request a configurator yields: the names of the instances it asks a child job to handle. */
  datatype JobRequest = JobRequest(id: int, instances: seq<string>)

  /** What the checks of `cantRunTask` that consult the configurator, the spec and the target answer. */
  datatype Probe = Probe(
    canDryRun: Outcome<Value>,
    missing: Outcome<seq<string>>,
    inputErrors: Outcome<Value>,
    preErrors: Outcome<Value>,
    cantRun: Outcome<Value>)

  /** The checks a task sees; the configurator check asks `cantRun`, as corrected (`CanRunOf`). */
  function ChecksFor(taskErrors: bool, dryRun: bool, p: Probe): RunChecks {
    RunChecks(taskErrors, dryRun, p.canDryRun, p.missing, p.inputErrors, p.preErrors, CanRunOf(p.cantRun))
  }

  /**
   * What the generator yields for one `send`: a subtask request (with the
   * configurator behaviour of the subtask, and whether creating the subtask
   * fails), a job request, a result, something else, or an exception.
   */
  datatype Response =
    | TaskRequest(spec: ConfigurationSpec, target: Instance, createFails: bool, behaviour: Behaviour)
    | JobRequestResponse(request: JobRequest)
    | Result(result: ConfiguratorResult)
    | Unexpected
    | Fails

  /**
   * One `send` to the generator: the change set `commitChanges` records, the
   * job requests the configurator queued meanwhile (`updateResources` appends
   * one to its job's `jobRequestQueue`), and the response.
   */
  datatype Step = Step(changes: map<string, Value>, queued: seq<JobRequest>, response: Response)

  /**
   * A configurator as a task sees it: the check answers, whether the
   * target's attributes changed (`getAttributeChanges`) when it finishes,
   * and the steps of its generator.
   */
  datatype Behaviour = Behaviour(probe: Probe, attributeChanges: bool, steps: seq<Step>)

  /** The target instances the subtask requests of a configurator name, at any depth. */
  function Targets(b: Behaviour): set<Instance>
    decreases b
  {
    set i, t | 0 <= i < |b.steps| && b.steps[i].response.TaskRequest?
                 && t in {b.steps[i].response.target} + Targets(b.steps[i].response.behaviour) :: t
  }

  lemma TargetsInclude(b: Behaviour, i: nat)
    requires i < |b.steps| && b.steps[i].response.TaskRequest?
    ensures b.steps[i].response.target in Targets(b)
    ensures Targets(b.steps[i].response.behaviour) <= Targets(b)
  {
    var r := b.steps[i].response;
    assert r.target in {r.target} + Targets(r.behaviour);
    forall t | t in Targets(r.behaviour)
      ensures t in Targets(b)
    {
      assert t in {r.target} + Targets(r.behaviour);
    }
  }

  /** A task the plan proposes: its spec, target, whether creating it fails, its "should run" answer and its configurator. */
  datatype Candidate = Candidate(spec: ConfigurationSpec, target: Instance, createFails: bool,
                                 answer: Outcome<ShouldRunAnswer>, behaviour: Behaviour)

  function CandidateTargets(candidates: seq<Candidate>): set<Instance> {
    set i, t | 0 <= i < |candidates| && t in {candidates[i].target} + Targets(candidates[i].behaviour) :: t
  }

  /** The nesting depths recorded after a run extend those before it, each new one within the limit. */
  ghost predicate DepthsExtend(before: seq<nat>, after: seq<nat>) {
    && |before| <= |after| && after[..|before|] == before
    && forall k :: |before| <= k < |after| ==> 0 < after[k] <= MaxNestedSubtasks
  }

  lemma DepthsExtendTrans(a: seq<nat>, b: seq<nat>, c: seq<nat>)
    requires DepthsExtend(a, b) && DepthsExtend(b, c)
    ensures DepthsExtend(a, c)
  {
    assert c[..|a|] == c[..|b|][..|a|];
  }

  lemma DepthsExtendKeeps(before: seq<nat>, after: seq<nat>, k: nat)
    requires DepthsExtend(before, after) && k < |before|
    ensures after[k] == before[k]
  {
    assert after[..|before|][k] == after[k];
  }

  lemma CandidateTargetsInclude(candidates: seq<Candidate>, i: nat)
    requires i < |candidates|
    ensures candidates[i].target in CandidateTargets(candidates)
    ensures Targets(candidates[i].behaviour) <= CandidateTargets(candidates)
  {
    var c := candidates[i];
    assert c.target in {c.target} + Targets(c.behaviour);
    forall t | t in Targets(c.behaviour)
      ensures t in CandidateTargets(candidates)
    {
      assert t in {c.target} + Targets(c.behaviour);
    }
  }

  /**
   * The answer `shouldRunTask` gets for a proposed task: its configurator's
   * `shouldRun`, since `createTask` has created the configurator, unless that
   * failed; then the spec's `shouldRun()`.
   */
  function CandidateAnswer(c: Candidate): Outcome<ShouldRunAnswer> {
    if c.createFails then Returns(PriorityAnswer(DefaultShouldRun)) else c.answer
  }

  /** Whether `run` goes on with a proposed task: the answer is normalised to a priority above `ignore`. */
  predicate CandidateRuns(c: Candidate) {
    CandidateAnswer(c).Returns? && NormalisePriority(CandidateAnswer(c).value).Above(Ignore)
  }

  /** `cantRunTask` of a proposed task: when it is checked, its only error can be the failed creation. */
  function CandidateCantRun(c: Candidate, dryRun: bool): Option<string> {
    CantRunMessage(ChecksFor(c.createFails, dryRun, c.behaviour.probe))
  }

  /** The result a planning-only job finishes a proposed task with. */
  function PlannedResult(c: Candidate, dryRun: bool): ConfiguratorResult {
    if CandidateCantRun(c, dryRun).None? then PretendSuccess() else NewResult(false, Some(false))
  }

  /**
   * What `run` has done with the task of a proposed task: nothing when it
   * should not run; when planning only, finished with the planned result;
   * otherwise run and finished with `RunEnding`: the can't-run reason when
   * it could not run, else how its configurator's script ends.
   */
  predicate Handled(c: Candidate, task: ConfigTask, planOnly: bool, dryRun: bool)
    reads task
  {
    && task.spec == c.spec && task.target == c.target
    && (!CandidateRuns(c) ==> task.result == None)
    && (CandidateRuns(c) && planOnly ==>
          task.result == Some(PlannedResult(c, dryRun)) && task.localStatus == Some(FinishedStatus(PlannedResult(c, dryRun))))
    && (CandidateRuns(c) && !planOnly ==>
          && task.result == Some(RunEnding(c.createFails, dryRun, c.behaviour, 0))
          && task.localStatus == Some(FinishedStatus(RunEnding(c.createFails, dryRun, c.behaviour, 0))))
  }

  /** The tasks of the first `|tasks|` proposed tasks are each `Handled`. */
  ghost predicate AllHandled(candidates: seq<Candidate>, tasks: seq<ConfigTask>, planOnly: bool, dryRun: bool)
    reads tasks
  {
    |tasks| <= |candidates| && forall k :: 0 <= k < |tasks| ==> Handled(candidates[k], tasks[k], planOnly, dryRun)
  }

  /** The work keys of the first `n` proposed tasks are all in `workDone`. */
  ghost predicate Registered(candidates: seq<Candidate>, n: nat, workDone: map<string, ConfigTask>, changeId: int) {
    n <= |candidates| && forall k :: 0 <= k < n ==> WorkKeyOf(candidates[k].target, candidates[k].spec, changeId) in workDone
  }

  lemma RegisteredGrows(candidates: seq<Candidate>, n: nat, before: map<string, ConfigTask>,
                        after: map<string, ConfigTask>, changeId: int)
    requires Registered(candidates, n, before, changeId) && n < |candidates| && before.Keys <= after.Keys
    requires WorkKeyOf(candidates[n].target, candidates[n].spec, changeId) in after
    ensures Registered(candidates, n + 1, after, changeId)
  {
  }

  lemma AllHandledAppend(candidates: seq<Candidate>, tasks: seq<ConfigTask>, task: ConfigTask, planOnly: bool, dryRun: bool)
    requires AllHandled(candidates, tasks, planOnly, dryRun) && |tasks| < |candidates|
    requires Handled(candidates[|tasks|], task, planOnly, dryRun)
    ensures AllHandled(candidates, tasks + [task], planOnly, dryRun)
  {
    var extended := tasks + [task];
    forall k | 0 <= k < |extended|
      ensures Handled(candidates[k], extended[k], planOnly, dryRun)
    {
      if k < |tasks| {
        assert extended[k] == tasks[k];
      }
    }
  }

  /** What one step of `runTask` leads to: another `send`, or the end of the run. */
  datatype Next = Continue | Stop(outcome: Outcome<ConfigTask>)

  /** How a run of a configurator's script ends: the result the task is finished with, and the task errors recorded. */
  datatype Ending = Ending(result: ConfiguratorResult, errors: seq<string>)

  /** `ConfiguratorResult(False, None, Status.error)`: what a task that failed to run is finished with. */
  function ErrorResult(): ConfiguratorResult {
    NewResult(false, None, Some(Error))
  }

  /** A subtask request at the depth bound: the task is finished, and the next `send` finds the generator closed. */
  function TooDeep(): Ending {
    Ending(ErrorResult(), ["too many subtasks spawned", "configurator.run failed"])
  }

  /** A response that ends `runTask`: a result, anything unexpected, or an exception. */
  predicate Ends(response: Response) {
    response.Result? || response.Unexpected? || response.Fails?
  }

  /**
   * How `runTask` ends once it sends from step `i` on, when no exception
   * escapes: the first result, unexpected answer or exception decides, and
   * so does a subtask request at the depth bound or running out of steps;
   * job requests and subtask requests below the bound go on.
   */
  function ScriptEnding(steps: seq<Step>, i: nat, depth: nat): Ending
    requires i <= |steps|
    decreases |steps| - i
  {
    if i == |steps| then Ending(ErrorResult(), ["configurator.run failed"])
    else match steps[i].response
      case Result(result) => Ending(result, [])
      case Fails => Ending(ErrorResult(), ["configurator.run failed"])
      case Unexpected => Ending(ErrorResult(), ["unexpected result from configurator"])
      case TaskRequest(_, _, _, _) => if depth >= MaxNestedSubtasks then TooDeep() else ScriptEnding(steps, i + 1, depth)
      case JobRequestResponse(_) => ScriptEnding(steps, i + 1, depth)
  }

  /** The result `runTask` finishes a task with: the can't-run reason, else how the configurator's script ends. */
  function RunEnding(taskErrors: bool, dryRun: bool, b: Behaviour, depth: nat): ConfiguratorResult {
    var cant := CantRunMessage(ChecksFor(taskErrors, dryRun, b.probe));
    if cant.Some? then NewResult(false, Some(false), result := Str(cant.value)) else ScriptEnding(b.steps, 0, depth).result
  }

  /** A script whose steps before a result only go on ends with that result, and records no error. */
  lemma {:induction false} FirstResultEnds(steps: seq<Step>, i: nat, j: nat, depth: nat)
    requires i <= j < |steps| && steps[j].response.Result?
    requires forall k :: i <= k < j ==>
      steps[k].response.JobRequestResponse? || (steps[k].response.TaskRequest? && depth < MaxNestedSubtasks)
    ensures ScriptEnding(steps, i, depth) == Ending(steps[j].response.result, [])
    decreases j - i
  {
    if i < j {
      FirstResultEnds(steps, i + 1, j, depth);
    }
  }

  /** A run ends as succeeded only with a result the configurator yielded: every other ending is the error result. */
  lemma {:induction false} SuccessIsYielded(steps: seq<Step>, i: nat, depth: nat)
    requires i <= |steps|
    ensures var e := ScriptEnding(steps, i, depth);
      e.result == ErrorResult() || exists j :: i <= j < |steps| && steps[j].response == Result(e.result)
    decreases |steps| - i
  {
    if i < |steps| && !Ends(steps[i].response) && !(steps[i].response.TaskRequest? && depth >= MaxNestedSubtasks) {
      SuccessIsYielded(steps, i + 1, depth);
    }
  }

  // ---------------------------------------------------------------------------
  // Task, job and runner

  class ConfigTask {
    const job: Job
    const spec: ConfigurationSpec
    const target: Instance
    const parentId: int
    const dryRun: bool
    var changeId: int
    var localStatus: Option<Status>
    /** `_priority`: None until set, when the spec's `shouldRun()` answers. */
    var priority: Option<Priority>
    /** The messages of the `UnfurlTaskError`s raised for this task. */
    var errors: seq<string>
    var result: Option<ConfiguratorResult>
    var outputs: Value
    var changeList: seq<map<string, Value>>
    /** The merged change set handed to `_resourceChanges.updateChanges`, if any. */
    var committed: Option<map<string, Value>>
    /** Whether `generator` is set. */
    var generatorOpen: bool
    /** Whether `_configurator` is set. */
    var configuratorCreated: bool

    constructor (job: Job, spec: ConfigurationSpec, target: Instance, parentId: Option<int>)
      ensures this.job == job && this.spec == spec && this.target == target
      ensures this.parentId == (if parentId.Some? && parentId.value != 0 then parentId.value else job.changeId)
      ensures changeId == this.parentId && dryRun == job.dryRun
      ensures localStatus == None && priority == None && errors == [] && result == None && outputs == Null
      ensures changeList == [] && committed == None && !generatorOpen && !configuratorCreated
    {
      this.job := job;
      this.spec := spec;
      this.target := target;
      // `parentId or job.changeId`: an id of 0 is falsy
      this.parentId := if parentId.Some? && parentId.value != 0 then parentId.value else job.changeId;
      changeId := if parentId.Some? && parentId.value != 0 then parentId.value else job.changeId;
      dryRun := job.dryRun;
      localStatus := None;
      priority := None;
      errors := [];
      result := None;
      outputs := Null;
      changeList := [];
      committed := None;
      generatorOpen := false;
      configuratorCreated := false;
    }

    /** The `priority` property: the stored priority, else the spec's `shouldRun()`. */
    function Priority(): (p: Priority)
      reads this
      ensures priority.Some? ==> p == priority.value
      ensures priority.None? ==> p == DefaultShouldRun
    {
      if priority.Some? then priority.value else DefaultShouldRun
    }

    /** `required`, taken as "the priority is `required`". */
    predicate Required()
      reads this
    {
      Priority() == Support.Required
    }

    /** `UnfurlTaskError(task, message, True)` */
    method AddError(message: string)
      modifies this
      ensures errors == old(errors) + [message]
      ensures changeId == old(changeId) && localStatus == old(localStatus) && priority == old(priority)
      ensures result == old(result) && changeList == old(changeList) && generatorOpen == old(generatorOpen)
      ensures committed == old(committed) && configuratorCreated == old(configuratorCreated)
    {
      errors := errors + [message];
    }

    /**
     * `done(...)` called on the task: the result of `Configurator.Done`, and a
     * captured exception is registered as an `UnfurlTaskError` of the task.
     */
    method Done(success: bool, modified: ModifiedArg, status: Option<Status> := None, result: Value := Null,
                outputs: Value := Null, captureException: Option<string> := None)
      returns (r: ConfiguratorResult)
      modifies this
      ensures r == Configurator.Done(old(Required()), success, modified, status, result, outputs, captureException)
      ensures errors == old(errors) + if captureException.Some? then [captureException.value] else []
      ensures changeId == old(changeId) && localStatus == old(localStatus) && priority == old(priority)
      ensures this.result == old(this.result) && changeList == old(changeList) && generatorOpen == old(generatorOpen)
      ensures committed == old(committed) && configuratorCreated == old(configuratorCreated)
    {
      if captureException.Some? {
        AddError(captureException.value);
      }
      r := Configurator.Done(Required(), success, modified, status, result, outputs, captureException);
    }

    /** `start()`: creates the configurator and its generator. */
    method Start()
      modifies this
      ensures generatorOpen && configuratorCreated
      ensures errors == old(errors) && changeId == old(changeId) && result == old(result)
      ensures changeList == old(changeList) && committed == old(committed) && priority == old(priority)
    {
      configuratorCreated := true;
      generatorOpen := true;
    }

    /** `commitChanges()`: records the change set of one `send`. */
    method CommitChanges(changes: map<string, Value>)
      modifies this
      ensures changeList == old(changeList) + [changes]
      ensures errors == old(errors) && changeId == old(changeId) && result == old(result)
      ensures generatorOpen == old(generatorOpen) && committed == old(committed) && priority == old(priority)
    {
      changeList := changeList + [changes];
    }

    /** `_updateStatus(result)`, as corrected. */
    method UpdateStatus(result: ConfiguratorResult)
      modifies target
      ensures target.localStatus == TargetStatus(result, Required(), old(target.localStatus))
      ensures target.lastConfigChange == old(target.lastConfigChange)
      ensures target.lastStateChange == old(target.lastStateChange)
    {
      if result.readyState.Some? {
        target.localStatus := result.readyState;
      } else if result.success != Some(true) {
        if result.modified == Some(true) {
          target.localStatus := Some(if Required() then Error else Degraded);
        } else if result.modified.None? {
          target.localStatus := Some(Unknown);
        }
      }
    }

    /**
     * `_updateLastChange(result)`: the first change of a target always
     * records the task as its last configuration change; the state change is
     * this task iff it modified the target or changed its attributes.
     */
    method UpdateLastChange(result: ConfiguratorResult, attributeChanges: bool)
      modifies target
      ensures target.lastConfigChange == if old(target.HasLastChange()) then old(target.lastConfigChange) else Some(changeId)
      ensures target.lastStateChange ==
        if result.modified == Some(true) || attributeChanges then Some(changeId) else old(target.lastStateChange)
      ensures target.localStatus == old(target.localStatus)
    {
      if !target.HasLastChange() {
        target.lastConfigChange := Some(changeId);
      }
      if result.modified == Some(true) || attributeChanges {
        target.lastStateChange := Some(changeId);
      }
    }

    /**
     * The merge loop of `finished`: pops the recorded change sets one by one,
     * folding them together, and hands the result over; the list ends empty.
     */
    method MergeChangeList()
      modifies this
      ensures changeList == []
      ensures committed == if old(changeList) == [] then old(committed) else Some(MergeAll(old(changeList), job.mergeDicts))
      ensures generatorOpen == old(generatorOpen) && outputs == old(outputs) && changeId == old(changeId)
      ensures errors == old(errors) && priority == old(priority) && configuratorCreated == old(configuratorCreated)
      ensures result == old(result) && localStatus == old(localStatus)
    {
      if changeList != [] {
        ghost var all := changeList;
        var accum := changeList[0];
        changeList := changeList[1..];
        ghost var taken := 1;
        while changeList != []
          invariant 1 <= taken <= |all| && changeList == all[taken..]
          invariant accum == MergeAll(all[..taken], job.mergeDicts)
          invariant generatorOpen == old(generatorOpen) && outputs == old(outputs) && changeId == old(changeId)
          invariant errors == old(errors) && priority == old(priority) && configuratorCreated == old(configuratorCreated)
          invariant result == old(result) && localStatus == old(localStatus)
          decreases |changeList|
        {
          assert all[..taken + 1][..taken] == all[..taken];
          accum := job.mergeDicts(accum, changeList[0]);
          changeList := changeList[1..];
          taken := taken + 1;
        }
        assert all[..taken] == all;
        committed := Some(accum);
      }
    }

    /**
     * `finished(result)`: closes the generator, takes a fresh change id
     * (larger than any issued so far), merges and hands over the recorded
     * change sets, updates the target and records the result.
     */
    method Finished(result: ConfiguratorResult, attributeChanges: bool)
      modifies this, target, job.runner
      ensures !generatorOpen && outputs == result.outputs && this.result == Some(result)
      ensures job.runner.lastChangeId == old(job.runner.lastChangeId) + 1 && changeId == job.runner.lastChangeId
      ensures job.runner.currentJob == old(job.runner.currentJob)
      ensures changeList == []
      ensures committed == if old(changeList) == [] then old(committed) else Some(MergeAll(old(changeList), job.mergeDicts))
      ensures target.localStatus == TargetStatus(result, old(Required()), old(target.localStatus))
      ensures target.lastConfigChange == if old(target.HasLastChange()) then old(target.lastConfigChange) else Some(changeId)
      ensures target.lastStateChange ==
        if result.modified == Some(true) || attributeChanges then Some(changeId) else old(target.lastStateChange)
      ensures localStatus == Some(FinishedStatus(result))
      ensures errors == old(errors) && priority == old(priority) && configuratorCreated == old(configuratorCreated)
    {
      generatorOpen := false;
      outputs := result.outputs;
      changeId := job.runner.IncrementChangeId();
      MergeChangeList();
      UpdateStatus(result);
      UpdateLastChange(result, attributeChanges);
      this.result := Some(result);
      localStatus := Some(if result.success == Some(true) then Ok else Error);
    }
  }

  /** The `workDone` key of a task: target, spec name, operation and change id. */
  function WorkKey(task: ConfigTask): string
    reads task
  {
    WorkKeyOf(task.target, task.spec, task.changeId)
  }

  /** `"%s:%s:%s:%s" % (target.name, configSpec.name, configSpec.operation, changeId)` */
  function WorkKeyOf(target: Instance, spec: ConfigurationSpec, changeId: int): string {
    target.name + ":" + spec.name + ":" + spec.operation + ":" + IntToString(changeId)
  }

  /** `list.index(x)`: the position of the first element equal to `x`. */
  function FirstIndex<T(==)>(xs: seq<T>, x: T): (i: nat)
    requires x in xs
    ensures i < |xs| && xs[i] == x && x !in xs[..i]
  {
    if xs[0] == x then 0
    else
      var i := 1 + FirstIndex(xs[1..], x);
      assert xs[..i] == [xs[0]] + xs[1..][..i - 1];
      i
  }

  /** `list.remove(x)`: the list without the first element equal to `x`, the others kept in order. */
  function RemoveFirst<T(==)>(xs: seq<T>, x: T): (r: seq<T>)
    requires x in xs
    ensures |r| == |xs| - 1
    ensures multiset(r) == multiset(xs) - multiset{x}
    ensures xs[0] == x ==> r == xs[1..]
  {
    assert xs == [xs[0]] + xs[1..];
    if xs[0] == x then xs[1..] else [xs[0]] + RemoveFirst(xs[1..], x)
  }

  /** `RemoveFirst` keeps the other elements in order and drops exactly the first occurrence of `x`. */
  lemma {:induction false} RemoveFirstKeepsOrder<T>(xs: seq<T>, x: T)
    requires x in xs
    ensures RemoveFirst(xs, x) == xs[..FirstIndex(xs, x)] + xs[FirstIndex(xs, x) + 1..]
    decreases |xs|
  {
    var j := FirstIndex(xs, x);
    var r := RemoveFirst(xs, x);
    if xs[0] == x {
      assert xs[..0] + xs[1..] == xs[1..];
    } else {
      var tail := xs[1..];
      assert x in tail by { assert xs == [xs[0]] + tail; }
      RemoveFirstKeepsOrder(tail, x);
      var i := FirstIndex(tail, x);
      var rest := RemoveFirst(tail, x);
      assert j == i + 1 && r == [xs[0]] + rest;
      var kept := xs[..j] + xs[j + 1..];
      forall k | 0 <= k < |r|
        ensures r[k] == kept[k]
      {
        if 0 < k < j {
          assert r[k] == rest[k - 1] == tail[k - 1];
        } else if j <= k {
          assert r[k] == rest[k - 1] == tail[k];
        }
      }
    }
  }

  class Runner {
    var lastChangeId: int
    var currentJob: Job?

    constructor (lastChangeId: int)
      ensures this.lastChangeId == lastChangeId && currentJob == null
    {
      this.lastChangeId := lastChangeId;
      currentJob := null;
    }

    /** `incrementChangeId()`: the next id, one more than the last issued. */
    method IncrementChangeId() returns (id: int)
      modifies this
      ensures lastChangeId == old(lastChangeId) + 1 && id == lastChangeId
      ensures currentJob == old(currentJob)
    {
      lastChangeId := lastChangeId + 1;
      id := lastChangeId;
    }

    /** `addWork(task)`: registers the task in the current job and in the task's own job. */
    method AddWork(task: ConfigTask)
      requires currentJob != null
      modifies currentJob, task.job
      ensures currentJob.workDone == old(currentJob.workDone)[WorkKey(task) := task]
      ensures task.job.workDone == old(task.job.workDone)[WorkKey(task) := task]
      ensures currentJob.jobRequestQueue == old(currentJob.jobRequestQueue)
      ensures task.job.jobRequestQueue == old(task.job.jobRequestQueue)
      ensures currentJob.changeId == old(currentJob.changeId) && task.job.changeId == old(task.job.changeId)
      ensures currentJob.subtaskDepths == old(currentJob.subtaskDepths)
      ensures task.job.subtaskDepths == old(task.job.subtaskDepths)
    {
      var key := WorkKey(task);
      currentJob.workDone := currentJob.workDone[key := task];
      task.job.workDone := task.job.workDone[key := task];
    }
  }

  class Job {
    const runner: Runner
    const options: JobOptions
    const dryRun: bool
    const mergeDicts: Merge
    /** The change id of the parent job, if any. */
    const parentId: Option<int>
    var changeId: int
    var workDone: map<string, ConfigTask>
    var jobRequestQueue: seq<JobRequest>
    /** The depth of every subtask this job's `runTask` has created. */
    ghost var subtaskDepths: seq<nat>

    /** `Job(runner, rootResource, plan, jobOptions)`: the job takes the next change id. */
    constructor (runner: Runner, options: JobOptions, parentId: Option<int>, mergeDicts: Merge)
      modifies runner
      ensures this.runner == runner && this.options == options && this.parentId == parentId
      ensures this.mergeDicts == mergeDicts && dryRun == Truthy(options.Opt("dryrun"))
      ensures runner.lastChangeId == old(runner.lastChangeId) + 1 && changeId == runner.lastChangeId
      ensures runner.currentJob == old(runner.currentJob)
      ensures workDone == map[] && jobRequestQueue == [] && subtaskDepths == []
    {
      this.runner := runner;
      this.options := options;
      this.parentId := parentId;
      this.mergeDicts := mergeDicts;
      dryRun := Truthy(options.Opt("dryrun"));
      workDone := map[];
      jobRequestQueue := [];
      subtaskDepths := [];
      new;
      changeId := runner.IncrementChangeId();
    }

    /** The `planOnly` job option. */
    predicate PlanOnly() {
      Truthy(options.Opt("planOnly"))
    }

    /**
     * `createTask(configSpec, target, parentId)`: evaluating the task's inputs
     * and its `configurator` property creates the configurator; a creation
     * that fails is recorded as a task error and leaves it uncreated.
     */
    method CreateTask(spec: ConfigurationSpec, target: Instance, parentId: Option<int>, createFails: bool)
      returns (task: ConfigTask)
      ensures fresh(task) && task.job == this && task.spec == spec && task.target == target
      ensures task.changeId == task.parentId
      ensures task.parentId == if parentId.Some? && parentId.value != 0 then parentId.value else changeId
      ensures task.errors == if createFails then ["unable to create task"] else []
      ensures task.result == None && task.changeList == [] && task.priority == None && !task.generatorOpen
      ensures task.configuratorCreated == !createFails && task.dryRun == dryRun
    {
      task := new ConfigTask(this, spec, target, parentId);
      if createFails {
        task.AddError("unable to create task");
      } else {
        task.configuratorCreated := true;
      }
    }

    /**
     * `shouldRunTask(task)`: the answer comes from the configurator once it
     * exists, else from the task's priority; it is normalised, stored on the
     * task, and the task runs iff it is above `ignore`. An exception is a task
     * error and the task does not run.
     */
    method ShouldRunTask(task: ConfigTask, configuratorAnswer: Outcome<ShouldRunAnswer>) returns (run: bool)
      modifies task
      ensures var answer := if old(task.configuratorCreated) then configuratorAnswer
                            else Returns(PriorityAnswer(old(task.Priority())));
        && (answer.Raises? ==>
              !run && task.errors == old(task.errors) + ["shouldRun failed unexpectedly"]
              && task.priority == old(task.priority))
        && (answer.Returns? ==>
              task.errors == old(task.errors)
              && task.Priority() == NormalisePriority(answer.value)
              && run == task.Priority().Above(Ignore))
      ensures task.changeId == old(task.changeId) && task.result == old(task.result)
      ensures task.changeList == old(task.changeList) && task.generatorOpen == old(task.generatorOpen)
    {
      var answer := if task.configuratorCreated then configuratorAnswer else Returns(PriorityAnswer(task.Priority()));
      if answer.Raises? {
        task.AddError("shouldRun failed unexpectedly");
        return false;
      }
      var priority := NormalisePriority(answer.value);
      if priority != task.Priority() {
        task.priority := Some(priority);
      }
      run := priority.Above(Ignore);
    }

    /** `cantRunTask(task)`: None for False, else the message; a check that raised is a task error. */
    method CantRunTask(task: ConfigTask, probe: Probe) returns (message: Option<string>)
      modifies task
      ensures message == CantRunMessage(ChecksFor(old(task.errors) != [], task.dryRun, probe))
      ensures task.errors == old(task.errors)
        + if CantRunReason(ChecksFor(old(task.errors) != [], task.dryRun, probe)).raised
          then ["cantRunTask failed unexpectedly"] else []
      ensures task.changeId == old(task.changeId) && task.result == old(task.result)
      ensures task.changeList == old(task.changeList) && task.generatorOpen == old(task.generatorOpen)
      ensures task.priority == old(task.priority) && task.committed == old(task.committed)
    {
      var checks := ChecksFor(task.errors != [], task.dryRun, probe);
      if CantRunReason(checks).raised {
        task.AddError("cantRunTask failed unexpectedly");
      }
      message := CantRunMessage(checks);
    }

    /**
     * `runJobRequest(jobRequest)`: takes the request off the queue (raising
     * ValueError when it is not queued) and creates the child job for the
     * requested instances, which takes the next change id.
     */
    method RunJobRequest(request: JobRequest) returns (r: Outcome<Job>)
      modifies this, runner
      ensures r.Returns? <==> request in old(jobRequestQueue)
      ensures r.Raises? ==> r.error == ValueError && jobRequestQueue == old(jobRequestQueue)
                            && runner.lastChangeId == old(runner.lastChangeId)
      ensures r.Returns? ==>
        && jobRequestQueue == RemoveFirst(old(jobRequestQueue), request)
        && fresh(r.value)
        && r.value.options == ChildJobOptions(Opaque(changeId), request.instances)
        && r.value.parentId == Some(changeId)
        && r.value.runner == runner
        && runner.lastChangeId == old(runner.lastChangeId) + 1 && r.value.changeId == runner.lastChangeId
      ensures runner.currentJob == old(runner.currentJob)
      ensures workDone == old(workDone) && changeId == old(changeId) && subtaskDepths == old(subtaskDepths)
    {
      if request !in jobRequestQueue {
        return Raises(ValueError);
      }
      jobRequestQueue := RemoveFirst(jobRequestQueue, request);
      var child := NewChildJob(request.instances);
      return Returns(child);
    }

    /** The child job of a job request: it takes the next change id and has this job as its parent. */
    method NewChildJob(instances: seq<string>) returns (child: Job)
      modifies runner
      ensures fresh(child) && child.runner == runner && child.parentId == Some(changeId)
      ensures child.options == ChildJobOptions(Opaque(changeId), instances)
      ensures runner.lastChangeId == old(runner.lastChangeId) + 1 && child.changeId == runner.lastChangeId
      ensures runner.currentJob == old(runner.currentJob)
    {
      var options := ChildJobOptions(Opaque(changeId), instances);
      child := new Job(runner, options, Some(changeId), mergeDicts);
    }

    /** The loop at the end of `run`: every queued job request is run, and the queue ends empty. */
    method DrainJobRequests()
      modifies this, runner
      ensures jobRequestQueue == []
      ensures runner.lastChangeId == old(runner.lastChangeId) + |old(jobRequestQueue)|
      ensures runner.currentJob == old(runner.currentJob)
      ensures workDone == old(workDone) && changeId == old(changeId) && subtaskDepths == old(subtaskDepths)
    {
      while jobRequestQueue != []
        invariant runner.lastChangeId + |jobRequestQueue| == old(runner.lastChangeId) + |old(jobRequestQueue)|
        invariant runner.currentJob == old(runner.currentJob)
        invariant workDone == old(workDone) && changeId == old(changeId) && subtaskDepths == old(subtaskDepths)
        decreases |jobRequestQueue|
      {
        var child := RunJobRequest(jobRequestQueue[0]);
      }
    }

    /** The part of the frame of `runTask` that its subtasks' targets add. */
    predicate TaskFrame(task: ConfigTask)
      reads this, runner, task
    {
      task.job == this && runner.currentJob != null
    }

    /** A result sent back by the configurator: the task is finished with it and takes the next change id. */
    method FinishRun(task: ConfigTask, result: ConfiguratorResult, attributeChanges: bool)
      requires task.job == this
      modifies task, task.target, runner
      ensures task.result == Some(result) && !task.generatorOpen
      ensures runner.lastChangeId == old(runner.lastChangeId) + 1 && task.changeId == runner.lastChangeId
      ensures runner.currentJob == old(runner.currentJob)
      ensures task.localStatus == Some(FinishedStatus(result)) && task.errors == old(task.errors)
      ensures task.target.localStatus == TargetStatus(result, old(task.Required()), old(task.target.localStatus))
      ensures task.changeList == []
      ensures task.committed == if old(task.changeList) == [] then old(task.committed) else Some(MergeAll(old(task.changeList), mergeDicts))
    {
      task.Finished(result, attributeChanges);
    }

    /** `UnfurlTaskError(task, message, True)` followed by finishing the task with an error. */
    method FailRun(task: ConfigTask, message: string, attributeChanges: bool)
      requires task.job == this
      modifies task, task.target, runner
      ensures task.errors == old(task.errors) + [message]
      ensures task.result == Some(ErrorResult()) && !task.generatorOpen
      ensures runner.lastChangeId == old(runner.lastChangeId) + 1 && task.changeId == runner.lastChangeId
      ensures runner.currentJob == old(runner.currentJob)
      ensures task.localStatus == Some(Error)
      ensures task.target.localStatus == TargetStatus(ErrorResult(), old(task.Required()), old(task.target.localStatus))
      ensures task.changeList == []
      ensures task.committed == if old(task.changeList) == [] then old(task.committed) else Some(MergeAll(old(task.changeList), mergeDicts))
    {
      task.AddError(message);
      task.Finished(ErrorResult(), attributeChanges);
    }

    /**
     * `runTask(task, depth)`. A task that can't run is finished as not
     * applied with the reason as its result. Otherwise the configurator's
     * script is run step by step (`Dispatch`). Sending to a generator that is
     * closed or has no more steps raises, which finishes the task with an
     * error. Exceptions of `runJobRequest` propagate. A task that returns is
     * finished with `RunEnding`.
     */
    method RunTask(task: ConfigTask, b: Behaviour, depth: nat) returns (r: Outcome<ConfigTask>)
      requires TaskFrame(task)
      modifies task, task.target, Targets(b), this, runner, runner.currentJob
      ensures runner.currentJob == old(runner.currentJob)
      ensures runner.lastChangeId >= old(runner.lastChangeId)
      ensures r.Returns? ==>
        && r.value == task && !task.generatorOpen
        && task.result == Some(RunEnding(old(task.errors) != [], task.dryRun, b, depth))
        && runner.lastChangeId > old(runner.lastChangeId) && task.changeId == runner.lastChangeId
        && task.localStatus == Some(FinishedStatus(task.result.value))
      ensures r.Raises? ==> r.error == ValueError
      ensures old(workDone).Keys <= workDone.Keys && changeId == old(changeId)
      ensures DepthsExtend(old(subtaskDepths), subtaskDepths)
      ensures depth >= MaxNestedSubtasks ==> subtaskDepths == old(subtaskDepths)
      ensures var cant := CantRunMessage(ChecksFor(old(task.errors) != [], task.dryRun, b.probe));
        cant.Some? ==> r == Returns(task) && task.result == Some(NewResult(false, Some(false), result := Str(cant.value)))
      ensures var cant := CantRunMessage(ChecksFor(old(task.errors) != [], task.dryRun, b.probe));
        cant.None? && r.Returns? ==> task.errors == old(task.errors) + ScriptEnding(b.steps, 0, depth).errors
      ensures var cant := CantRunMessage(ChecksFor(old(task.errors) != [], task.dryRun, b.probe));
        cant.None? && depth >= MaxNestedSubtasks && |b.steps| > 0 && b.steps[0].response.TaskRequest? ==>
          && r == Returns(task)
          && task.result == Some(NewResult(false, None, Some(Error)))
          && task.errors == old(task.errors) + ["too many subtasks spawned", "configurator.run failed"]
      decreases b, 5
    {
      var cant := CantRunTask(task, b.probe);
      if cant.Some? {
        task.Finished(NewResult(false, Some(false), result := Str(cant.value)), b.attributeChanges);
        return Returns(task);
      }
      task.Start();
      r := RunScript(task, b, depth);
    }

    /**
     * The loop of `runTask` over the configurator's script, once the
     * generator is started: a task that returns is finished with how the
     * script ends (`ScriptEnding`).
     */
    method RunScript(task: ConfigTask, b: Behaviour, depth: nat) returns (r: Outcome<ConfigTask>)
      requires TaskFrame(task) && task.generatorOpen
      modifies task, task.target, Targets(b), this, runner, runner.currentJob
      ensures runner.currentJob == old(runner.currentJob)
      ensures runner.lastChangeId >= old(runner.lastChangeId)
      ensures r.Returns? ==>
        && r.value == task && !task.generatorOpen
        && task.result == Some(ScriptEnding(b.steps, 0, depth).result)
        && task.errors == old(task.errors) + ScriptEnding(b.steps, 0, depth).errors
        && runner.lastChangeId > old(runner.lastChangeId) && task.changeId == runner.lastChangeId
        && task.localStatus == Some(FinishedStatus(task.result.value))
      ensures r.Raises? ==> r.error == ValueError
      ensures old(workDone).Keys <= workDone.Keys && changeId == old(changeId)
      ensures DepthsExtend(old(subtaskDepths), subtaskDepths)
      ensures depth >= MaxNestedSubtasks ==> subtaskDepths == old(subtaskDepths)
      ensures depth >= MaxNestedSubtasks && |b.steps| > 0 && b.steps[0].response.TaskRequest? ==> r == Returns(task)
      decreases b, 4
    {
      var i := 0;
      while true
        invariant 0 <= i <= |b.steps|
        invariant TaskFrame(task)
        invariant runner.currentJob == old(runner.currentJob)
        invariant runner.lastChangeId >= old(runner.lastChangeId)
        invariant old(workDone).Keys <= workDone.Keys && changeId == old(changeId)
        invariant DepthsExtend(old(subtaskDepths), subtaskDepths)
        invariant depth >= MaxNestedSubtasks ==> subtaskDepths == old(subtaskDepths)
        invariant task.errors == old(task.errors) + if task.generatorOpen then [] else ["too many subtasks spawned"]
        invariant task.generatorOpen ==> ScriptEnding(b.steps, 0, depth) == ScriptEnding(b.steps, i, depth)
        invariant !task.generatorOpen ==> ScriptEnding(b.steps, 0, depth) == TooDeep()
        invariant depth >= MaxNestedSubtasks && i > 0 && b.steps[0].response.TaskRequest? ==> !task.generatorOpen
        invariant i == 0 ==> task.generatorOpen
        decreases |b.steps| - i
      {
        if !task.generatorOpen || i == |b.steps| {
          // sending to a closed or exhausted generator raises; `commitChanges` still runs
          task.CommitChanges(map[]);
          FailRun(task, "configurator.run failed", b.attributeChanges);
          return Returns(task);
        }
        ghost var depths := subtaskDepths;
        var next := Dispatch(task, b, i, depth);
        DepthsExtendTrans(old(subtaskDepths), depths, subtaskDepths);
        i := i + 1;
        if next.Stop? {
          return next.outcome;
        }
      }
    }

    /** A subtask request below the depth bound: the subtask is created, registered in `workDone` and run. */
    method RunSubtask(b: Behaviour, i: nat, depth: nat) returns (r: Outcome<ConfigTask>, subtask: ConfigTask)
      requires i < |b.steps| && b.steps[i].response.TaskRequest? && depth < MaxNestedSubtasks
      requires runner.currentJob != null
      modifies Targets(b), this, runner, runner.currentJob
      ensures var request := b.steps[i].response;
        && fresh(subtask) && subtask.job == this && subtask.parentId == changeId
        && subtask.spec == request.spec && subtask.target == request.target
        && WorkKeyOf(request.target, request.spec, changeId) in workDone
        && (r.Returns? ==>
              && r.value == subtask
              && subtask.result == Some(RunEnding(request.createFails, dryRun, request.behaviour, depth + 1))
              && subtask.localStatus == Some(FinishedStatus(subtask.result.value)))
      ensures runner.currentJob == old(runner.currentJob)
      ensures runner.lastChangeId >= old(runner.lastChangeId)
      ensures r.Raises? ==> r.error == ValueError
      ensures old(workDone).Keys <= workDone.Keys && changeId == old(changeId)
      ensures |old(subtaskDepths)| < |subtaskDepths| && DepthsExtend(old(subtaskDepths), subtaskDepths)
      ensures subtaskDepths[|old(subtaskDepths)|] == depth + 1
      decreases b, 0
    {
      var request := b.steps[i].response;
      TargetsInclude(b, i);
      subtask := CreateTask(request.spec, request.target, Some(changeId), request.createFails);
      runner.AddWork(subtask);
      subtaskDepths := subtaskDepths + [depth + 1];
      ghost var depths := subtaskDepths;
      assert DepthsExtend(old(subtaskDepths), depths) by {
        assert depths[..|old(subtaskDepths)|] == old(subtaskDepths);
      }
      r := RunTask(subtask, request.behaviour, depth + 1);
      DepthsExtendTrans(old(subtaskDepths), depths, subtaskDepths);
      DepthsExtendKeeps(depths, subtaskDepths, |old(subtaskDepths)|);
    }

    /**
     * One `send` of the loop in `runTask`: appends the job requests the
     * configurator queued meanwhile, records the step's change set and acts
     * on the response (`Respond`).
     */
    method Dispatch(task: ConfigTask, b: Behaviour, i: nat, depth: nat) returns (next: Next)
      requires TaskFrame(task) && i < |b.steps| && task.generatorOpen
      modifies task, task.target, Targets(b), this, runner, runner.currentJob
      ensures runner.currentJob == old(runner.currentJob)
      ensures runner.lastChangeId >= old(runner.lastChangeId)
      ensures next.Stop? && next.outcome.Returns? ==>
        && next.outcome.value == task && task.result.Some? && !task.generatorOpen
        && runner.lastChangeId > old(runner.lastChangeId) && task.changeId == runner.lastChangeId
        && task.localStatus == Some(FinishedStatus(task.result.value))
        && task.result == Some(ScriptEnding(b.steps, i, depth).result)
        && task.errors == old(task.errors) + ScriptEnding(b.steps, i, depth).errors
        && task.changeList == [] && task.committed == Some(MergeAll(old(task.changeList) + [b.steps[i].changes], mergeDicts))
      ensures next.Stop? && next.outcome.Raises? ==> next.outcome.error == ValueError
      ensures next.Continue? ==>
        task.errors == old(task.errors) + if task.generatorOpen then [] else ["too many subtasks spawned"]
      ensures next.Continue? && task.generatorOpen ==>
        ScriptEnding(b.steps, i, depth) == ScriptEnding(b.steps, i + 1, depth)
        && task.changeList == old(task.changeList) + [b.steps[i].changes]
      ensures next.Continue? && !task.generatorOpen ==> ScriptEnding(b.steps, i, depth) == TooDeep()
      ensures depth >= MaxNestedSubtasks && b.steps[i].response.TaskRequest? ==> next.Continue? && !task.generatorOpen
      ensures var step := b.steps[i];
        Ends(step.response) ==>
          && next == Stop(Returns(task)) && jobRequestQueue == old(jobRequestQueue) + step.queued
          && task.target.localStatus == TargetStatus(ScriptEnding(b.steps, i, depth).result, old(task.Required()), old(task.target.localStatus))
      ensures var step := b.steps[i];
        step.response.JobRequestResponse? ==>
          if step.response.request in old(jobRequestQueue) + step.queued
          then next == Continue && jobRequestQueue == RemoveFirst(old(jobRequestQueue) + step.queued, step.response.request)
          else next == Stop(Raises(ValueError)) && jobRequestQueue == old(jobRequestQueue) + step.queued
      ensures old(workDone).Keys <= workDone.Keys && changeId == old(changeId)
      ensures DepthsExtend(old(subtaskDepths), subtaskDepths)
      ensures depth >= MaxNestedSubtasks ==> subtaskDepths == old(subtaskDepths)
      decreases b, 3
    {
      var step := b.steps[i];
      jobRequestQueue := jobRequestQueue + step.queued;
      task.CommitChanges(step.changes);
      next := Respond(task, b, i, depth);
    }

    /**
     * The response part of `Dispatch`, once the queued job requests and the
     * change set are recorded: a subtask request (`SubtaskRequest`), a job
     * request, which goes on iff it is queued, or a response that ends the
     * run (`EndRun`).
     */
    method Respond(task: ConfigTask, b: Behaviour, i: nat, depth: nat) returns (next: Next)
      requires TaskFrame(task) && i < |b.steps| && task.generatorOpen
      modifies task, task.target, Targets(b), this, runner, runner.currentJob
      ensures runner.currentJob == old(runner.currentJob)
      ensures runner.lastChangeId >= old(runner.lastChangeId)
      ensures next.Stop? && next.outcome.Returns? ==>
        && next.outcome.value == task && task.result.Some? && !task.generatorOpen
        && runner.lastChangeId > old(runner.lastChangeId) && task.changeId == runner.lastChangeId
        && task.localStatus == Some(FinishedStatus(task.result.value))
        && task.result == Some(ScriptEnding(b.steps, i, depth).result)
        && task.errors == old(task.errors) + ScriptEnding(b.steps, i, depth).errors
      ensures next.Stop? && next.outcome.Raises? ==> next.outcome.error == ValueError
      ensures next.Continue? ==>
        task.errors == old(task.errors) + if task.generatorOpen then [] else ["too many subtasks spawned"]
      ensures next.Continue? && task.generatorOpen ==>
        ScriptEnding(b.steps, i, depth) == ScriptEnding(b.steps, i + 1, depth) && task.changeList == old(task.changeList)
      ensures next.Continue? && !task.generatorOpen ==> ScriptEnding(b.steps, i, depth) == TooDeep()
      ensures depth >= MaxNestedSubtasks && b.steps[i].response.TaskRequest? ==> next.Continue? && !task.generatorOpen
      ensures !(next.Continue? && task.generatorOpen) && !(next.Stop? && next.outcome.Raises?) ==>
        task.changeList == [] &&
        task.committed == if old(task.changeList) == [] then old(task.committed) else Some(MergeAll(old(task.changeList), mergeDicts))
      ensures var response := b.steps[i].response;
        Ends(response) ==>
          && next == Stop(Returns(task)) && jobRequestQueue == old(jobRequestQueue)
          && task.target.localStatus == TargetStatus(ScriptEnding(b.steps, i, depth).result, old(task.Required()), old(task.target.localStatus))
      ensures var response := b.steps[i].response;
        response.JobRequestResponse? ==>
          if response.request in old(jobRequestQueue)
          then next == Continue && jobRequestQueue == RemoveFirst(old(jobRequestQueue), response.request)
          else next == Stop(Raises(ValueError)) && jobRequestQueue == old(jobRequestQueue)
      ensures old(workDone).Keys <= workDone.Keys && changeId == old(changeId)
      ensures DepthsExtend(old(subtaskDepths), subtaskDepths)
      ensures depth >= MaxNestedSubtasks ==> subtaskDepths == old(subtaskDepths)
      decreases b, 2
    {
      var response := b.steps[i].response;
      if Ends(response) {
        EndRun(task, b, i, depth);
        return Stop(Returns(task));
      } else if response.TaskRequest? {
        ghost var subtask: ConfigTask?;
        next, subtask := SubtaskRequest(task, b, i, depth);
      } else {
        var job := RunJobRequest(response.request);
        if job.Raises? {
          return Stop(Raises(job.error));
        }
        return Continue;
      }
    }

    /**
     * A response that ends the run: a result finishes the task with it;
     * anything unexpected, or an exception, records the error and finishes
     * the task with the error result.
     */
    method EndRun(task: ConfigTask, b: Behaviour, i: nat, depth: nat)
      requires task.job == this && i < |b.steps| && Ends(b.steps[i].response)
      modifies task, task.target, runner
      ensures var e := ScriptEnding(b.steps, i, depth);
        && task.result == Some(e.result) && task.errors == old(task.errors) + e.errors && !task.generatorOpen
        && task.localStatus == Some(FinishedStatus(e.result))
        && task.target.localStatus == TargetStatus(e.result, old(task.Required()), old(task.target.localStatus))
      ensures task.changeList == []
      ensures task.committed == if old(task.changeList) == [] then old(task.committed) else Some(MergeAll(old(task.changeList), mergeDicts))
      ensures runner.lastChangeId == old(runner.lastChangeId) + 1 && task.changeId == runner.lastChangeId
      ensures runner.currentJob == old(runner.currentJob)
    {
      match b.steps[i].response {
        case Result(result) =>
          FinishRun(task, result, b.attributeChanges);
        case Fails =>
          FailRun(task, "configurator.run failed", b.attributeChanges);
        case Unexpected =>
          FailRun(task, "unexpected result from configurator", b.attributeChanges);
      }
    }

    /**
     * A `TaskRequest` sent back by the configurator: at the depth bound the task
     * gets an error and is finished as failed, which closes its generator;
     * below it the subtask is created under this job's change id, registered,
     * and run one level deeper, and the loop goes on.
     */
    method SubtaskRequest(task: ConfigTask, b: Behaviour, i: nat, depth: nat) returns (next: Next, ghost subtask: ConfigTask?)
      requires TaskFrame(task) && i < |b.steps| && b.steps[i].response.TaskRequest? && task.generatorOpen
      modifies task, task.target, Targets(b), this, runner, runner.currentJob
      ensures runner.currentJob == old(runner.currentJob)
      ensures runner.lastChangeId >= old(runner.lastChangeId)
      ensures next.Stop? ==> next.outcome == Raises(ValueError)
      ensures next.Continue? ==>
        task.errors == old(task.errors) + if task.generatorOpen then [] else ["too many subtasks spawned"]
      ensures depth >= MaxNestedSubtasks ==>
        && next.Continue? && !task.generatorOpen && subtaskDepths == old(subtaskDepths)
        && task.result == Some(NewResult(false, None)) && jobRequestQueue == old(jobRequestQueue) && task.changeList == []
        && task.committed == if old(task.changeList) == [] then old(task.committed) else Some(MergeAll(old(task.changeList), mergeDicts))
      ensures depth < MaxNestedSubtasks ==> var request := b.steps[i].response;
        && task.generatorOpen && task.errors == old(task.errors) && task.changeList == old(task.changeList)
        && subtask != null && fresh(subtask) && subtask.job == this && subtask.parentId == changeId
        && subtask.spec == request.spec && subtask.target == request.target
        && WorkKeyOf(request.target, request.spec, changeId) in workDone
        && |old(subtaskDepths)| < |subtaskDepths| && subtaskDepths[|old(subtaskDepths)|] == depth + 1
        && (next.Continue? ==> subtask.result == Some(RunEnding(request.createFails, dryRun, request.behaviour, depth + 1)))
      ensures old(workDone).Keys <= workDone.Keys && changeId == old(changeId)
      ensures DepthsExtend(old(subtaskDepths), subtaskDepths)
      decreases b, 1
    {
      if depth >= MaxNestedSubtasks {
        task.AddError("too many subtasks spawned");
        task.Finished(NewResult(false, None), b.attributeChanges);
        return Continue, null;
      }
      var rr;
      rr, subtask := RunSubtask(b, i, depth);
      if rr.Raises? {
        return Stop(Raises(rr.error)), subtask;
      }
      return Continue, subtask;
    }

    /**
     * The planning-only branch of `run`: the task is finished as succeeded
     * when it could run, as not applied otherwise.
     */
    method PlanTask(task: ConfigTask, b: Behaviour)
      requires task.job == this
      modifies task, task.target, runner
      ensures var cant := CantRunMessage(ChecksFor(old(task.errors) != [], task.dryRun, b.probe));
        var planned := if cant.None? then PretendSuccess() else NewResult(false, Some(false));
        task.result == Some(planned) && task.localStatus == Some(FinishedStatus(planned))
      ensures runner.currentJob == old(runner.currentJob) && runner.lastChangeId == old(runner.lastChangeId) + 1
    {
      var cant := CantRunTask(task, b.probe);
      if cant.None? {
        task.Finished(PretendSuccess(), b.attributeChanges);
      } else {
        task.Finished(NewResult(false, Some(false)), b.attributeChanges);
      }
    }

    /**
     * One iteration of the task loop of `run`: the task is created and
     * registered, skipped unless it should run, then either pretended
     * (planOnly: finished as succeeded when it could run, as not applied
     * otherwise) or run.
     */
    method RunCandidate(c: Candidate) returns (r: Outcome<()>, task: ConfigTask)
      requires runner.currentJob != null
      modifies {c.target} + Targets(c.behaviour), this, runner, runner.currentJob
      ensures fresh(task) && task.job == this
      ensures runner.currentJob == old(runner.currentJob)
      ensures r.Raises? ==> r.error == ValueError
      ensures r.Returns? ==> Handled(c, task, PlanOnly(), dryRun)
      ensures !CandidateRuns(c) || PlanOnly() ==>
        && r == Returns(())
        && workDone == old(workDone)[WorkKeyOf(c.target, c.spec, changeId) := task]
        && runner.currentJob.workDone == old(runner.currentJob.workDone)[WorkKeyOf(c.target, c.spec, changeId) := task]
      ensures WorkKeyOf(c.target, c.spec, changeId) in workDone
      ensures old(workDone).Keys <= workDone.Keys && changeId == old(changeId)
      ensures runner.lastChangeId >= old(runner.lastChangeId)
      ensures DepthsExtend(old(subtaskDepths), subtaskDepths)
    {
      task := CreateTask(c.spec, c.target, None, c.createFails);
      runner.AddWork(task);
      var run := ShouldRunTask(task, c.answer);
      if !run {
        return Returns(()), task;
      }
      if PlanOnly() {
        PlanTask(task, c.behaviour);
        return Returns(()), task;
      }
      var rr := RunTask(task, c.behaviour, 0);
      if rr.Raises? {
        return Raises(rr.error), task;
      }
      return Returns(()), task;
    }

    /**
     * The task loop of `run` over the tasks the plan proposes (after
     * `filterConfig`). With no exception every proposed task is registered
     * and handled; `tasks` are the tasks created, in order.
     */
    method RunCandidates(candidates: seq<Candidate>) returns (r: Outcome<()>, ghost tasks: seq<ConfigTask>)
      requires runner.currentJob != null
      modifies CandidateTargets(candidates), this, runner, runner.currentJob
      ensures runner.currentJob == old(runner.currentJob)
      ensures r.Returns? ==> |tasks| == |candidates|
      ensures r.Returns? ==> forall n :: 0 <= n < |candidates| ==> Handled(candidates[n], tasks[n], PlanOnly(), dryRun)
      ensures r.Returns? ==> forall n :: 0 <= n < |candidates| ==>
        WorkKeyOf(candidates[n].target, candidates[n].spec, changeId) in workDone
      ensures r.Raises? ==> r.error == ValueError
      ensures runner.lastChangeId >= old(runner.lastChangeId)
      ensures DepthsExtend(old(subtaskDepths), subtaskDepths)
    {
      tasks := [];
      ghost var planOnly := PlanOnly();
      for n := 0 to |candidates|
        invariant |tasks| == n
        invariant AllHandled(candidates, tasks, planOnly, dryRun)
        invariant Registered(candidates, n, workDone, changeId)
        invariant changeId == old(changeId)
        invariant runner.currentJob == old(runner.currentJob)
        invariant runner.lastChangeId >= old(runner.lastChangeId)
        invariant DepthsExtend(old(subtaskDepths), subtaskDepths)
      {
        var rr, task := RunNext(candidates, n, tasks, planOnly, old(subtaskDepths));
        if rr.Raises? {
          return rr, tasks;
        }
        AllHandledAppend(candidates, tasks, task, planOnly, dryRun);
        tasks := tasks + [task];
      }
      return Returns(()), tasks;
    }

    /**
     * One round of the loop in `RunCandidates`: runs candidate `n`, whose task
     * is then `Handled`, and keeps every fact the loop has established about
     * the tasks before it.
     */
    method RunNext(candidates: seq<Candidate>, n: nat, ghost tasks: seq<ConfigTask>, ghost planOnly: bool, ghost depths: seq<nat>)
      returns (r: Outcome<()>, task: ConfigTask)
      requires n < |candidates| && |tasks| == n && planOnly == PlanOnly()
      requires runner.currentJob != null
      requires AllHandled(candidates, tasks, planOnly, dryRun)
      requires Registered(candidates, n, workDone, changeId)
      requires DepthsExtend(depths, subtaskDepths)
      modifies CandidateTargets(candidates), this, runner, runner.currentJob
      ensures r.Returns? ==> Handled(candidates[n], task, planOnly, dryRun)
      ensures AllHandled(candidates, tasks, planOnly, dryRun)
      ensures Registered(candidates, n + 1, workDone, changeId)
      ensures r.Raises? ==> r.error == ValueError
      ensures changeId == old(changeId) && runner.currentJob == old(runner.currentJob)
      ensures runner.lastChangeId >= old(runner.lastChangeId)
      ensures DepthsExtend(depths, subtaskDepths)
    {
      CandidateTargetsInclude(candidates, n);
      ghost var before := subtaskDepths;
      ghost var registered := workDone;
      r, task := RunCandidate(candidates[n]);
      DepthsExtendTrans(depths, before, subtaskDepths);
      RegisteredGrows(candidates, n, registered, workDone, changeId);
      assert AllHandled(candidates, tasks, planOnly, dryRun);
    }

    /**
     * `run()`: the task loop, then the job request loop. With no exception
     * every proposed task is registered and handled, and the queue of job
     * requests ends empty.
     */
    method Run(candidates: seq<Candidate>) returns (r: Outcome<()>, ghost tasks: seq<ConfigTask>)
      requires runner.currentJob != null
      modifies CandidateTargets(candidates), this, runner, runner.currentJob
      ensures runner.currentJob == old(runner.currentJob)
      ensures r.Returns? ==> jobRequestQueue == []
      ensures r.Returns? ==> |tasks| == |candidates|
      ensures r.Returns? ==> forall n :: 0 <= n < |candidates| ==> Handled(candidates[n], tasks[n], PlanOnly(), dryRun)
      ensures r.Returns? ==> forall n :: 0 <= n < |candidates| ==>
        WorkKeyOf(candidates[n].target, candidates[n].spec, changeId) in workDone
      ensures r.Raises? ==> r.error == ValueError
      ensures runner.lastChangeId >= old(runner.lastChangeId)
      ensures DepthsExtend(old(subtaskDepths), subtaskDepths)
    {
      r, tasks := RunCandidates(candidates);
      if r.Raises? {
        return;
      }
      DrainJobRequests();
    }
  }
}
