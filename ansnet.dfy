/**
 * The older task builder and dispatcher (`AnsibleNetworking`): it holds the
 * inventory and a MAC-to-host alias table, builds a one-play playbook for a
 * task of the `openstack-ml2` role, submits it to the engine and classifies
 * the answer.
 */
module Ansnet {
  import opened Common
  import opened Hosts
  import opened Runner
  import opened Neutron

  const PlaybookName: string := "Openstack networking-ansible playbook"
  const RoleName: string := "openstack-ml2"

  // ---------------------------------------------------------------------
  // The MAC alias table built by the constructor
  // ---------------------------------------------------------------------

  /** The host carries a string `mac` variable. */
  predicate HasMac(h: HostEntry) {
    "mac" in h.vars && h.vars["mac"].Str?
  }

  /** `h['mac'].upper()` */
  function UpperMac(h: HostEntry): string
    requires HasMac(h)
  {
    Upper(h.vars["mac"].s)
  }

  /**
   * `{h['mac'].upper(): name for name, h in hosts.items() if 'mac' in h}`:
   * later hosts overwrite earlier ones with the same upper-cased MAC.
   */
  function MacMapOf(hosts: seq<HostEntry>): (m: map<string, string>)
  {
    if hosts == [] then map[]
    else
      var h := hosts[|hosts| - 1];
      var m := MacMapOf(hosts[..|hosts| - 1]);
      if HasMac(h) then m[UpperMac(h) := h.name] else m
  }

  /** The table holds exactly the upper-cased MACs of the hosts that have one. */
  lemma {:induction false} MacMapKeys(hosts: seq<HostEntry>, k: string)
    ensures k in MacMapOf(hosts) <==> exists i :: 0 <= i < |hosts| && HasMac(hosts[i]) && UpperMac(hosts[i]) == k
  {
    if hosts != [] {
      var init := hosts[..|hosts| - 1];
      MacMapKeys(init, k);
      if k in MacMapOf(hosts) && !(HasMac(hosts[|hosts| - 1]) && UpperMac(hosts[|hosts| - 1]) == k) {
        var i :| 0 <= i < |init| && HasMac(init[i]) && UpperMac(init[i]) == k;
        assert hosts[i] == init[i];
      }
      if exists i :: 0 <= i < |hosts| && HasMac(hosts[i]) && UpperMac(hosts[i]) == k {
        var i :| 0 <= i < |hosts| && HasMac(hosts[i]) && UpperMac(hosts[i]) == k;
        if i < |init| {
          assert init[i] == hosts[i];
        }
      }
    }
  }

  /** Every value of the table is the name of an inventory host. */
  lemma {:induction false} MacMapValues(hosts: seq<HostEntry>, k: string)
    requires k in MacMapOf(hosts)
    ensures MacMapOf(hosts)[k] in Names(hosts)
  {
    var init := hosts[..|hosts| - 1];
    var last := hosts[|hosts| - 1];
    if !(HasMac(last) && UpperMac(last) == k) {
      MacMapValues(init, k);
      var j :| 0 <= j < |init| && Names(init)[j] == MacMapOf(init)[k];
      assert Names(hosts)[j] == hosts[j].name == init[j].name;
    } else {
      assert Names(hosts)[|hosts| - 1] == last.name;
    }
  }

  /**
   * A host's upper-cased MAC maps to that host when no later host has the
   * same upper-cased MAC (in particular, whenever MACs are unique).
   */
  lemma {:induction false} MacMapFindsLastHost(hosts: seq<HostEntry>, i: nat)
    requires i < |hosts| && HasMac(hosts[i])
    requires forall j :: i < j < |hosts| && HasMac(hosts[j]) ==> UpperMac(hosts[j]) != UpperMac(hosts[i])
    ensures UpperMac(hosts[i]) in MacMapOf(hosts) && MacMapOf(hosts)[UpperMac(hosts[i])] == hosts[i].name
  {
    var init := hosts[..|hosts| - 1];
    if i < |hosts| - 1 {
      assert init[i] == hosts[i];
      forall j | i < j < |init| && HasMac(init[j]) ensures UpperMac(init[j]) != UpperMac(init[i]) {
        assert init[j] == hosts[j];
      }
      MacMapFindsLastHost(init, i);
    }
  }

  // ---------------------------------------------------------------------
  // Building the playbook
  // ---------------------------------------------------------------------

  /** The switch-side VLAN name: `'1'` is the switch's default VLAN, anything else `vlan{N}`. */
  function VlanName(segmentationId: string): (name: string)
  {
    if segmentationId == "1" then "default" else "vlan" + segmentationId
  }

  /** Distinct segmentation ids never share a VLAN name; `default` belongs to `'1'` alone. */
  lemma VlanNameInjective(a: string, b: string)
    requires VlanName(a) == VlanName(b)
    ensures a == b
  {
    assert a != "1" ==> VlanName(a)[0] == 'v';
    assert b != "1" ==> VlanName(b)[0] == 'v';
    if a != "1" && b != "1" {
      assert a == ("vlan" + a)[4..];
      assert b == ("vlan" + b)[4..];
    }
  }

  /**
   * The playbook `_run_task` submits: one play on `hostName`, one task that
   * imports `task` from the `openstack-ml2` role, with the VLAN name and id,
   * plus the switch port as `port_name` and `port_description` when it is truthy.
   */
  function LegacyPlaybook(task: string, hostName: Option<string>, segmentationId: string, switchPort: Option<string>): (pb: Playbook)
    ensures |pb| == 1 && pb[0].name == PlaybookName && pb[0].hosts == hostName && pb[0].gatherFacts == "no"
    ensures |pb[0].tasks| == 1 && pb[0].tasks[0].name == "do " + task
    ensures pb[0].tasks[0].importRole == RoleImport(RoleName, task)
    ensures pb[0].tasks[0].vars.Keys ==
              {"segmentation_name", "segmentation_id"} + (if Truthy(switchPort) then {"port_name", "port_description"} else {})
    ensures pb[0].tasks[0].vars["segmentation_name"] == Some(if segmentationId == "1" then "default" else "vlan" + segmentationId)
    ensures pb[0].tasks[0].vars["segmentation_id"] == Some(segmentationId)
    ensures Truthy(switchPort) ==>
              pb[0].tasks[0].vars["port_name"] == switchPort && pb[0].tasks[0].vars["port_description"] == switchPort
  {
    var base := map["segmentation_name" := Some(VlanName(segmentationId)), "segmentation_id" := Some(segmentationId)];
    var vars := if Truthy(switchPort) then base["port_name" := switchPort]["port_description" := switchPort] else base;
    [Play(PlaybookName, hostName, "no", [PlayTask("do " + task, RoleImport(RoleName, task), vars)])]
  }

  /** The playbook determines the call: task, target host, segmentation id and (truthy) switch port. */
  lemma LegacyPlaybookDeterminesCall(t1: string, h1: Option<string>, s1: string, p1: Option<string>,
                                     t2: string, h2: Option<string>, s2: string, p2: Option<string>)
    requires LegacyPlaybook(t1, h1, s1, p1) == LegacyPlaybook(t2, h2, s2, p2)
    ensures t1 == t2 && h1 == h2 && s1 == s2
    ensures Truthy(p1) <==> Truthy(p2)
    ensures Truthy(p1) ==> p1 == p2
  {
    var v1 := LegacyPlaybook(t1, h1, s1, p1)[0].tasks[0].vars;
    var v2 := LegacyPlaybook(t2, h2, s2, p2)[0].tasks[0].vars;
    assert Truthy(p1) <==> "port_name" in v1;
    assert Truthy(p2) <==> "port_name" in v2;
  }

  // ---------------------------------------------------------------------
  // Deciding what an access-port call dispatches
  // ---------------------------------------------------------------------

  /** `'assign'` or `'remove'`. */
  datatype PortOp = Assign | Remove

  /** `{'assign': 'update_port', 'remove': 'delete_port'}[assign_remove]` */
  function TaskFor(op: PortOp): string {
    match op
    case Assign => "update_port"
    case Remove => "delete_port"
  }

  /** `network['provider:segmentation_id'] or '1'` */
  function SegmentationIdOr1(network: Network): string {
    if Truthy(network.segmentationId) then network.segmentationId.value else "1"
  }

  /** `link.get('switch_id', '').upper()`, defined unless the key holds None. */
  function SwitchMac(switchId: IdField): string
    requires !switchId.ExplicitNone?
  {
    if switchId.Given? then Upper(switchId.value) else Upper("")
  }

  /**
   * The switch name: `switch_info` when it is truthy, else the alias of the
   * upper-cased `switch_id` when the table has it, else `switch_info` as it
   * stands (None or ''), so that the run then targets no known host.
   */
  function ResolveSwitch(link: LinkInfo, macMap: map<string, string>): Option<string>
    requires !link.switchId.ExplicitNone?
  {
    var switchMac := SwitchMac(link.switchId);
    if !Truthy(link.switchInfo) && switchMac in macMap then Some(macMap[switchMac]) else link.switchInfo
  }

  /** A truthy `switch_info` always wins over the MAC table. */
  lemma SwitchInfoWins(link: LinkInfo, macMap: map<string, string>)
    requires Truthy(link.switchInfo) && !link.switchId.ExplicitNone?
    ensures ResolveSwitch(link, macMap) == link.switchInfo
  {
  }

  /** MACs that differ only in letter case resolve to the same switch. */
  lemma ResolveIgnoresMacCase(a: LinkInfo, b: LinkInfo, macMap: map<string, string>)
    requires a.switchInfo == b.switchInfo && a.switchId.Given? && b.switchId.Given?
    requires Lower(a.switchId.value) == Lower(b.switchId.value)
    ensures ResolveSwitch(a, macMap) == ResolveSwitch(b, macMap)
  {
    UpperIgnoresCase(a.switchId.value, b.switchId.value);
  }

  /** One `_run_task` call: task, host, segmentation id and switch port. */
  datatype TaskCall = TaskCall(task: string, host: Option<string>, segmentationId: string, switchPort: Option<string>)

  /** What `vlan_access_port` does: return at once, raise before any run, or make one task call. */
  datatype Dispatch = Skip | Raise(error: RunnerError) | Run(call: TaskCall)

  /**
   * What `vlan_access_port` dispatches: nothing without local-link
   * information; `AttributeError` when the first link's `switch_id` is an
   * explicit None; otherwise the switch task for `op` on the resolved switch,
   * the network's segmentation id (or `'1'`) and the first link's `port_id`.
   */
  function AccessPortCall(op: PortOp, port: Port, network: Network, macMap: map<string, string>): (c: Dispatch)
    ensures c.Skip? <==> port.localLinkInfo == []
    ensures c.Raise? <==> port.localLinkInfo != [] && port.localLinkInfo[0].switchId.ExplicitNone?
    ensures c.Raise? ==> c.error == AttributeError
    ensures c.Run? ==> c.call.task == TaskFor(op) && c.call.switchPort == port.localLinkInfo[0].portId
    ensures c.Run? ==> c.call.host == ResolveSwitch(port.localLinkInfo[0], macMap)
    ensures c.Run? ==> c.call.segmentationId == (if Truthy(network.segmentationId) then network.segmentationId.value else "1")
  {
    if port.localLinkInfo == [] then Skip
    else
      var link := port.localLinkInfo[0];
      if link.switchId.ExplicitNone? then Raise(AttributeError)
      else Run(TaskCall(TaskFor(op), ResolveSwitch(link, macMap), SegmentationIdOr1(network), link.portId))
  }

  function CallPlaybook(c: TaskCall): Playbook {
    LegacyPlaybook(c.task, c.host, c.segmentationId, c.switchPort)
  }

  /** The runs an access-port call makes: none, or the one playbook of the call. */
  function CallEvents(c: Dispatch, inventory: Inventory): seq<Event> {
    if c.Run? then [RunPlaybook(CallPlaybook(c.call), inventory)] else []
  }

  /** How an access-port call ends: normally when it returned at once, with its error when it raised, else as the engine's answer is classified. */
  function CallOutcome(c: Dispatch, inventory: Inventory, respond: (Playbook, Inventory) -> RunnerResult): Outcome<RunnerError> {
    match c
    case Skip => Pass
    case Raise(e) => Fail(e)
    case Run(call) => CheckOutcome(respond(CallPlaybook(call), inventory))
  }

  /**
   * A link without a truthy `switch_info` whose MAC the table does not know
   * is still dispatched, to the host `switch_info` names as it stands: None
   * or the empty name, which no inventory entry answers to.
   */
  lemma AccessPortUnknownMac(op: PortOp, port: Port, network: Network, macMap: map<string, string>)
    requires port.localLinkInfo != [] && !port.localLinkInfo[0].switchId.ExplicitNone?
    requires !Truthy(port.localLinkInfo[0].switchInfo) && SwitchMac(port.localLinkInfo[0].switchId) !in macMap
    ensures AccessPortCall(op, port, network, macMap).Run?
    ensures var host := AccessPortCall(op, port, network, macMap).call.host;
            host == port.localLinkInfo[0].switchInfo && (host == None || host == Some(""))
  {
  }

  /** An explicit None `switch_id` raises `AttributeError` before anything runs. */
  lemma AccessPortNoneSwitchIdRaises(op: PortOp, port: Port, network: Network, macMap: map<string, string>,
                                     inventory: Inventory, respond: (Playbook, Inventory) -> RunnerResult)
    requires port.localLinkInfo != [] && port.localLinkInfo[0].switchId.ExplicitNone?
    ensures CallEvents(AccessPortCall(op, port, network, macMap), inventory) == []
    ensures CallOutcome(AccessPortCall(op, port, network, macMap), inventory, respond) == Fail(AttributeError)
  {
  }

  /** An access-port call on a network without a segmentation id goes to the switch's default VLAN. */
  lemma AccessPortDefaultVlan(op: PortOp, port: Port, network: Network, macMap: map<string, string>)
    requires port.localLinkInfo != [] && !port.localLinkInfo[0].switchId.ExplicitNone? && !Truthy(network.segmentationId)
    ensures var vars := CallPlaybook(AccessPortCall(op, port, network, macMap).call)[0].tasks[0].vars;
            vars["segmentation_id"] == Some("1") && vars["segmentation_name"] == Some("default")
  {
  }

  /** `assign` runs the `update_port` task and `remove` the `delete_port` task, with the port as `port_name`. */
  lemma AccessPortTask(op: PortOp, port: Port, network: Network, macMap: map<string, string>)
    requires port.localLinkInfo != [] && !port.localLinkInfo[0].switchId.ExplicitNone?
    ensures var pb := CallPlaybook(AccessPortCall(op, port, network, macMap).call);
            pb[0].tasks[0].importRole.tasksFrom == (if op == Assign then "update_port" else "delete_port")
            && (Truthy(port.localLinkInfo[0].portId) ==> pb[0].tasks[0].vars["port_name"] == port.localLinkInfo[0].portId)
  {
  }

  /**
   * A port whose link reports only the switch's MAC, in any letter case,
   * is routed to the inventory host that declares that MAC, when no later
   * host declares the same MAC (the last one wins).
   */
  lemma AccessPortFindsHostByMac(op: PortOp, port: Port, network: Network, hosts: seq<HostEntry>, i: nat)
    requires i < |hosts| && HasMac(hosts[i])
    requires forall j :: i < j < |hosts| && HasMac(hosts[j]) ==> UpperMac(hosts[j]) != UpperMac(hosts[i])
    requires port.localLinkInfo != [] && !Truthy(port.localLinkInfo[0].switchInfo)
    requires port.localLinkInfo[0].switchId.Given?
    requires Lower(port.localLinkInfo[0].switchId.value) == Lower(hosts[i].vars["mac"].s)
    ensures AccessPortCall(op, port, network, MacMapOf(hosts)).call.host == Some(hosts[i].name)
  {
    MacMapFindsLastHost(hosts, i);
    UpperIgnoresCase(port.localLinkInfo[0].switchId.value, hosts[i].vars["mac"].s);
  }

  // ---------------------------------------------------------------------
  // The object
  // ---------------------------------------------------------------------

  class AnsibleNetworking {
    const inventory: Inventory
    /** upper-cased MAC -> host name */
    const macMap: map<string, string>
    const world: World

    constructor (inventory: Inventory, world: World)
      requires MacsAreStrings(inventory.hosts)
      ensures this.inventory == inventory && this.world == world
      ensures macMap == MacMapOf(inventory.hosts)
    {
      this.inventory := inventory;
      this.world := world;
      macMap := MacMapOf(inventory.hosts);
    }

    /** Build the playbook (adding the port variables in place when a port is given), run it, classify the answer. */
    method RunTask(task: string, hostName: Option<string>, segmentationId: string, switchPort: Option<string>)
      returns (r: Result<RunnerResult, RunnerError>)
      modifies world
      ensures world.events == old(world.events) + [RunPlaybook(LegacyPlaybook(task, hostName, segmentationId, switchPort), inventory)]
      ensures r == Check(world.respond(LegacyPlaybook(task, hostName, segmentationId, switchPort), inventory))
    {
      var segmentationName: string;
      if segmentationId == "1" {
        segmentationName := "default";
      } else {
        segmentationName := "vlan" + segmentationId;
      }
      var vars := map["segmentation_name" := Some(segmentationName), "segmentation_id" := Some(segmentationId)];
      if Truthy(switchPort) {
        vars := vars["port_name" := switchPort];
        vars := vars["port_description" := switchPort];
      }
      var playbook := [Play(PlaybookName, hostName, "no", [PlayTask("do " + task, RoleImport(RoleName, task), vars)])];
      var result := world.Run(playbook, inventory);
      r := Check(result);
    }

    method CreateNetwork(hostName: string, segmentationId: string) returns (r: Outcome<RunnerError>)
      modifies world
      ensures world.events == old(world.events) + [RunPlaybook(LegacyPlaybook("create_network", Some(hostName), segmentationId, None), inventory)]
      ensures r == CheckOutcome(world.respond(LegacyPlaybook("create_network", Some(hostName), segmentationId, None), inventory))
    {
      var res := RunTask("create_network", Some(hostName), segmentationId, None);
      r := if res.Failure? then Fail(res.error) else Pass;
    }

    method DeleteNetwork(hostName: string, segmentationId: string) returns (r: Outcome<RunnerError>)
      modifies world
      ensures world.events == old(world.events) + [RunPlaybook(LegacyPlaybook("delete_network", Some(hostName), segmentationId, None), inventory)]
      ensures r == CheckOutcome(world.respond(LegacyPlaybook("delete_network", Some(hostName), segmentationId, None), inventory))
    {
      var res := RunTask("delete_network", Some(hostName), segmentationId, None);
      r := if res.Failure? then Fail(res.error) else Pass;
    }

    /**
     * Plug the port into (assign) or out of (remove) the network's VLAN on its
     * switch. Without local-link information nothing runs and nothing is
     * raised; an explicit None `switch_id` raises `AttributeError` before
     * the run; a failed run is re-raised unchanged.
     */
    method VlanAccessPort(op: PortOp, port: Port, network: Network) returns (r: Outcome<RunnerError>)
      modifies world
      ensures world.events == old(world.events) + CallEvents(AccessPortCall(op, port, network, macMap), inventory)
      ensures r == CallOutcome(AccessPortCall(op, port, network, macMap), inventory, world.respond)
    {
      var segmentationId := if Truthy(network.segmentationId) then network.segmentationId.value else "1";
      if |port.localLinkInfo| == 0 {
        return Pass;
      }
      var link := port.localLinkInfo[0];
      if link.switchId.ExplicitNone? {
        // `None.upper()`
        return Fail(AttributeError);
      }
      var switchMac := SwitchMac(link.switchId);
      var switchName := link.switchInfo;
      var switchPort := link.portId;
      if !Truthy(switchName) && switchMac in macMap {
        switchName := Some(macMap[switchMac]);
      }
      var res := RunTask(TaskFor(op), switchName, segmentationId, switchPort);
      r := if res.Failure? then Fail(res.error) else Pass;
    }
  }
}
