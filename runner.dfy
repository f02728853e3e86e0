/**
 * The boundary to the automation engine and to the host framework.
 *
 * `ansible_runner.run(playbook=..., inventory=..., settings=...)` is the
 * engine's `respond` function, supplied from outside; every call out of the
 * driver (a playbook run, a provisioning-block call, `set_binding`) is
 * appended, in order, to the event trace of one `World` object.
 */
module Runner {
  import opened Common
  import opened Hosts

  /** `'import_role': {'name': ..., 'tasks_from': ...}` */
  datatype RoleImport = RoleImport(name: string, tasksFrom: string)

  /** One entry of a play's `tasks` list; a variable may be None. */
  datatype PlayTask = PlayTask(name: string, importRole: RoleImport, vars: map<string, Option<string>>)

  /** One play: `{'name', 'hosts', 'gather_facts', 'tasks'}`; `hosts` may be None. */
  datatype Play = Play(name: string, hosts: Option<string>, gatherFacts: string, tasks: seq<PlayTask>)

  type Playbook = seq<Play>

  /** The part of `result.stats` the driver reads: its `failures` entry, if any. */
  datatype Stats = Stats(failures: Option<seq<string>>)

  /** What `ansible_runner.run` returns, as far as the driver looks at it. */
  datatype RunnerResult = RunnerResult(status: string, stats: Option<Stats>, stdout: seq<string>)

  /**
   * An exception escaping a switch-task call:
   * `exceptions.AnsibleRunnerException(' '.join(result.stdout))` for a failed
   * run, or the `AttributeError` of `None.upper()` when a port's first link
   * carries an explicit `switch_id` of None.
   */
  datatype RunnerError = AnsibleRunnerException(message: string) | AttributeError

  /** `result.stats and result.stats.get('failures', [])` is truthy. */
  predicate HasFailures(r: RunnerResult) {
    r.stats.Some? && r.stats.value.failures.Some? && r.stats.value.failures.value != []
  }

  /** The engine reported failure: a failed status, or a non-empty failures list. */
  predicate Failed(r: RunnerResult) {
    r.status == "failed" || HasFailures(r)
  }

  /**
   * The failure check at the end of `_run_task`: raise with the space-joined
   * standard output when the run failed, otherwise return the result.
   */
  function Check(r: RunnerResult): (out: Result<RunnerResult, RunnerError>)
    ensures out.Failure? <==> (r.status == "failed" || HasFailures(r))
    ensures out.Failure? ==> out.error == AnsibleRunnerException(JoinSpace(r.stdout))
    ensures out.Success? ==> out.value == r
  {
    if Failed(r) then Failure(AnsibleRunnerException(JoinSpace(r.stdout))) else Success(r)
  }

  /** `Check` for callers that discard the returned result. */
  function CheckOutcome(r: RunnerResult): (out: Outcome<RunnerError>)
    ensures out.Fail? <==> Check(r).Failure?
    ensures out.Fail? ==> out.error == Check(r).error
  {
    if Failed(r) then Fail(Check(r).error) else Pass
  }

  /** Either failure signal alone is enough to classify a run as failed. */
  lemma EitherSignalFails(r: RunnerResult)
    ensures r.status == "failed" ==> Check(r).Failure?
    ensures HasFailures(r) ==> Check(r).Failure?
    ensures r.status != "failed" && (r.stats.None? || r.stats.value.failures.None?) ==> Check(r) == Success(r)
  {
  }

  /** Calls out of the driver, in the order they are made. */
  datatype Event =
    | RunPlaybook(playbook: Playbook, inventory: Inventory)
    | AddProvisioningComponent(objectId: string, objectType: string, entity: string)
    | ProvisioningComplete(objectId: string, objectType: string, entity: string)
    | SetBinding(segmentId: string, vifType: string)

  /** The host the first play of a playbook run targets, if the event is a run. */
  function TargetHost(e: Event): Option<string> {
    if e.RunPlaybook? && |e.playbook| > 0 then e.playbook[0].hosts else None
  }

  /** The role task file the first task of a playbook run imports, if the event is a run. */
  function TargetTask(e: Event): Option<string> {
    if e.RunPlaybook? && |e.playbook| > 0 && |e.playbook[0].tasks| > 0
    then Some(e.playbook[0].tasks[0].importRole.tasksFrom) else None
  }

  /** The outside world: the engine's answers and the trace of every call made to it or to the framework. */
  class World {
    const respond: (Playbook, Inventory) -> RunnerResult
    var events: seq<Event>

    constructor (respond: (Playbook, Inventory) -> RunnerResult)
      ensures this.respond == respond && events == []
    {
      this.respond := respond;
      events := [];
    }

    /** `ansible_runner.run(playbook=playbook, inventory=inventory, settings={'pexpect_use_poll': False})` */
    method Run(playbook: Playbook, inventory: Inventory) returns (r: RunnerResult)
      modifies this
      ensures events == old(events) + [RunPlaybook(playbook, inventory)]
      ensures r == respond(playbook, inventory)
    {
      events := events + [RunPlaybook(playbook, inventory)];
      r := respond(playbook, inventory);
    }

    /** A call into the host framework, recorded in order. */
    method Record(e: Event)
      requires !e.RunPlaybook?
      modifies this
      ensures events == old(events) + [e]
    {
      events := events + [e];
    }
  }
}
