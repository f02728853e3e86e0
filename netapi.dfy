/**
 * The newer task builder and dispatcher (`NetworkingAnsible`): the same
 * one-play playbook shape as the older generation, with the variables
 * `vlan_id` (always present, possibly None), `vlan_name` and
 * `port_name`/`port_description`, and four task kinds.
 */
module NetApi {
  import opened Common
  import opened Hosts
  import opened Runner

  /** The format string has no placeholder, so the switch task never shows in the name. */
  const ApiPlaybookName: string := "Openstack Networking-Ansible: "
  const RoleName: string := "openstack-ml2"

  /**
   * The playbook `_run_task` submits for `task` on `hostname`: `vlan_id`
   * always, `vlan_name` only when truthy, and the port as `port_name` and
   * `port_description` only when truthy.
   */
  function ApiPlaybook(task: string, hostname: string, port: Option<string>, vlanId: Option<string>, vlanName: Option<string>): (pb: Playbook)
    ensures |pb| == 1 && pb[0].hosts == Some(hostname) && pb[0].gatherFacts == "no" && |pb[0].tasks| == 1
    ensures pb[0].name == ApiPlaybookName
    ensures pb[0].tasks[0].name == "do " + task && pb[0].tasks[0].importRole == RoleImport(RoleName, task)
    ensures var vars := pb[0].tasks[0].vars;
            && vars.Keys == {"vlan_id"} + (if Truthy(vlanName) then {"vlan_name"} else {})
                                        + (if Truthy(port) then {"port_name", "port_description"} else {})
            && vars["vlan_id"] == vlanId
            && (Truthy(vlanName) ==> vars["vlan_name"] == vlanName)
            && (Truthy(port) ==> vars["port_name"] == port && vars["port_description"] == port)
  {
    var base := map["vlan_id" := vlanId];
    var withName := if Truthy(vlanName) then base["vlan_name" := vlanName] else base;
    var vars := if Truthy(port) then withName["port_name" := port]["port_description" := port] else withName;
    [Play(ApiPlaybookName, Some(hostname), "no", [PlayTask("do " + task, RoleImport(RoleName, task), vars)])]
  }

  /** The playbook name does not depend on the switch task. */
  lemma ApiPlaybookNameIgnoresTask(t1: string, t2: string, hostname: string, port: Option<string>, vlanId: Option<string>, vlanName: Option<string>)
    ensures ApiPlaybook(t1, hostname, port, vlanId, vlanName)[0].name == ApiPlaybook(t2, hostname, port, vlanId, vlanName)[0].name
    ensures t1 != t2 ==> ApiPlaybook(t1, hostname, port, vlanId, vlanName) != ApiPlaybook(t2, hostname, port, vlanId, vlanName)
  {
    assert ApiPlaybook(t1, hostname, port, vlanId, vlanName)[0].tasks[0].importRole.tasksFrom == t1;
  }

  /** `create_vlan`: the VLAN id only; the `vlan_name` argument is never forwarded. */
  function CreateVlanPlaybook(hostname: string, vlanId: Option<string>, vlanName: Option<string>): (pb: Playbook)
    ensures |pb| == 1 && pb[0].hosts == Some(hostname) && |pb[0].tasks| == 1
    ensures pb[0].tasks[0].importRole.tasksFrom == "create_vlan"
    ensures pb[0].tasks[0].vars.Keys == {"vlan_id"} && pb[0].tasks[0].vars["vlan_id"] == vlanId
  {
    ApiPlaybook("create_vlan", hostname, None, vlanId, None)
  }

  /** Whatever name is passed to `create_vlan`, the playbook is the one without a name. */
  lemma CreateVlanIgnoresName(hostname: string, vlanId: Option<string>, vlanName: Option<string>)
    ensures CreateVlanPlaybook(hostname, vlanId, vlanName) == CreateVlanPlaybook(hostname, vlanId, None)
    ensures Truthy(vlanName) ==> CreateVlanPlaybook(hostname, vlanId, vlanName) != ApiPlaybook("create_vlan", hostname, None, vlanId, vlanName)
  {
    assert "vlan_name" in ApiPlaybook("create_vlan", hostname, None, vlanId, vlanName)[0].tasks[0].vars <==> Truthy(vlanName);
  }

  /** `delete_vlan`: the VLAN id and no port. */
  function DeleteVlanPlaybook(hostname: string, vlanId: Option<string>): (pb: Playbook)
    ensures |pb| == 1 && pb[0].hosts == Some(hostname) && |pb[0].tasks| == 1
    ensures pb[0].tasks[0].importRole.tasksFrom == "delete_vlan"
    ensures pb[0].tasks[0].vars.Keys == {"vlan_id"} && pb[0].tasks[0].vars["vlan_id"] == vlanId
  {
    ApiPlaybook("delete_vlan", hostname, None, vlanId, None)
  }

  /** `update_access_port`: both the port and the VLAN id (None or '' leaves the switch default to the role). */
  function UpdateAccessPortPlaybook(hostname: string, port: Option<string>, vlanId: Option<string>): (pb: Playbook)
    ensures |pb| == 1 && pb[0].hosts == Some(hostname) && |pb[0].tasks| == 1
    ensures pb[0].tasks[0].importRole.tasksFrom == "update_access_port"
    ensures pb[0].tasks[0].vars.Keys == {"vlan_id"} + (if Truthy(port) then {"port_name", "port_description"} else {})
    ensures pb[0].tasks[0].vars["vlan_id"] == vlanId
    ensures Truthy(port) ==> pb[0].tasks[0].vars["port_name"] == port && pb[0].tasks[0].vars["port_description"] == port
  {
    ApiPlaybook("update_access_port", hostname, port, vlanId, None)
  }

  /** `delete_port`: the port, and `vlan_id` is None. */
  function DeletePortPlaybook(hostname: string, port: Option<string>): (pb: Playbook)
    ensures |pb| == 1 && pb[0].hosts == Some(hostname) && |pb[0].tasks| == 1
    ensures pb[0].tasks[0].importRole.tasksFrom == "delete_port"
    ensures pb[0].tasks[0].vars.Keys == {"vlan_id"} + (if Truthy(port) then {"port_name", "port_description"} else {})
    ensures pb[0].tasks[0].vars["vlan_id"] == None
    ensures Truthy(port) ==> pb[0].tasks[0].vars["port_name"] == port && pb[0].tasks[0].vars["port_description"] == port
  {
    ApiPlaybook("delete_port", hostname, port, None, None)
  }

  class NetworkingAnsible {
    const inventory: Inventory
    const world: World

    constructor (inventory: Inventory, world: World)
      ensures this.inventory == inventory && this.world == world
    {
      this.inventory := inventory;
      this.world := world;
    }

    /** Build the playbook (adding optional variables in place), run it, classify the answer. */
    method RunTask(task: string, hostname: string, port: Option<string>, vlanId: Option<string>, vlanName: Option<string>)
      returns (r: Result<RunnerResult, RunnerError>)
      modifies world
      ensures world.events == old(world.events) + [RunPlaybook(ApiPlaybook(task, hostname, port, vlanId, vlanName), inventory)]
      ensures r == Check(world.respond(ApiPlaybook(task, hostname, port, vlanId, vlanName), inventory))
    {
      var vars := map["vlan_id" := vlanId];
      if Truthy(vlanName) {
        vars := vars["vlan_name" := vlanName];
      }
      if Truthy(port) {
        vars := vars["port_name" := port];
        vars := vars["port_description" := port];
      }
      var playbook := [Play(ApiPlaybookName, Some(hostname), "no", [PlayTask("do " + task, RoleImport(RoleName, task), vars)])];
      var result := world.Run(playbook, inventory);
      r := Check(result);
    }

    method CreateVlan(hostname: string, vlanId: Option<string>, vlanName: Option<string>) returns (r: Result<RunnerResult, RunnerError>)
      modifies world
      ensures world.events == old(world.events) + [RunPlaybook(CreateVlanPlaybook(hostname, vlanId, vlanName), inventory)]
      ensures r == Check(world.respond(CreateVlanPlaybook(hostname, vlanId, vlanName), inventory))
    {
      r := RunTask("create_vlan", hostname, None, vlanId, None);
    }

    method DeleteVlan(hostname: string, vlanId: Option<string>) returns (r: Result<RunnerResult, RunnerError>)
      modifies world
      ensures world.events == old(world.events) + [RunPlaybook(DeleteVlanPlaybook(hostname, vlanId), inventory)]
      ensures r == Check(world.respond(DeleteVlanPlaybook(hostname, vlanId), inventory))
    {
      r := RunTask("delete_vlan", hostname, None, vlanId, None);
    }

    method UpdateAccessPort(hostname: string, port: Option<string>, vlanId: Option<string>) returns (r: Result<RunnerResult, RunnerError>)
      modifies world
      ensures world.events == old(world.events) + [RunPlaybook(UpdateAccessPortPlaybook(hostname, port, vlanId), inventory)]
      ensures r == Check(world.respond(UpdateAccessPortPlaybook(hostname, port, vlanId), inventory))
    {
      r := RunTask("update_access_port", hostname, port, vlanId, None);
    }

    method DeletePort(hostname: string, port: Option<string>) returns (r: Result<RunnerResult, RunnerError>)
      modifies world
      ensures world.events == old(world.events) + [RunPlaybook(DeletePortPlaybook(hostname, port), inventory)]
      ensures r == Check(world.respond(DeletePortPlaybook(hostname, port), inventory))
    {
      r := RunTask("delete_port", hostname, port, None, None);
    }
  }
}
