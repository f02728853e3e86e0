/**
 * The lifecycle coordinator (`AnsibleMechanismDriver`): it reacts to the
 * framework's network and port events by deciding whether to act and on
 * which switches, and dispatches through the older task builder.
 *
 * What each handler does is first defined as a trace function (the calls it
 * makes, in order, and how it ends); the handlers are proved to produce
 * exactly that trace, and the decision rules are proved about the traces.
 */
module MechDriver {
  import opened Common
  import opened Hosts
  import opened Runner
  import opened Neutron
  import opened Ansnet

  /** The provisioning-block entity of this driver. */
  const AnsibleNetworkingEntity: string := "ANSIBLENETWORKING"

  /** `context` of a network event: `context.current`. */
  datatype NetworkContext = NetworkContext(current: Network)

  /** `context` of a port event: the port now and before, its network, and the segments offered for binding. */
  datatype PortContext = PortContext(current: Port, original: Port, network: Network, segmentsToBind: seq<Segment>)

  /** How a handler can end abnormally. */
  datatype DriverError =
    | MechanismDriverError(cause: RunnerError)  // `ml2_exc.MechanismDriverError(e)`
    | Raised(error: RunnerError)                // a task failure re-raised unchanged
    | IndexError                                // `segments[0]` with no segment to bind

  /** The calls a handler makes, in order, and how it ends. */
  datatype Trace = Trace(events: seq<Event>, outcome: Outcome<DriverError>)

  // ---------------------------------------------------------------------
  // The two port predicates
  // ---------------------------------------------------------------------

  /** `_is_port_supported`: VNIC type `baremetal`. */
  predicate IsPortSupported(port: Port) {
    port.vnicType == VnicBaremetal
  }

  /** `_is_port_bound`: not bound unless supported; then bound when the VIF type is `other`. */
  predicate IsPortBound(port: Port) {
    if !IsPortSupported(port) then false else port.vifType == VifTypeOther
  }

  /** Bound means exactly baremetal with VIF type `other`; so bound implies supported. */
  lemma BoundMeansBaremetalOther(port: Port)
    ensures IsPortBound(port) <==> port.vnicType == "baremetal" && port.vifType == "other"
    ensures IsPortBound(port) ==> IsPortSupported(port)
  {
  }

  // ---------------------------------------------------------------------
  // Network fan-out
  // ---------------------------------------------------------------------

  /** `provider_type == 'vlan' and segmentation_id` */
  predicate Handled(network: Network) {
    network.networkType == "vlan" && Truthy(network.segmentationId)
  }

  /** The hosts whose `manage_vlans` is not false, in inventory order. */
  function ManagedHosts(hosts: seq<HostEntry>): seq<string>
    decreases |hosts|
  {
    if hosts == [] then []
    else (if ManagesVlans(hosts[0]) then [hosts[0].name] else []) + ManagedHosts(hosts[1..])
  }

  /** A name is managed iff some host of that name manages VLANs. */
  lemma {:induction false} ManagedHostsMembers(hosts: seq<HostEntry>, n: string)
    ensures n in ManagedHosts(hosts) <==> exists i :: 0 <= i < |hosts| && hosts[i].name == n && ManagesVlans(hosts[i])
    decreases |hosts|
  {
    if hosts != [] {
      ManagedHostsMembers(hosts[1..], n);
      if exists i :: 0 <= i < |hosts| && hosts[i].name == n && ManagesVlans(hosts[i]) {
        var i :| 0 <= i < |hosts| && hosts[i].name == n && ManagesVlans(hosts[i]);
        if i > 0 {
          assert hosts[1..][i - 1] == hosts[i];
        }
      }
      if n in ManagedHosts(hosts[1..]) {
        var i :| 0 <= i < |hosts| - 1 && hosts[1..][i].name == n && ManagesVlans(hosts[1..][i]);
        assert hosts[i + 1] == hosts[1..][i];
      }
    }
  }

  /** A host whose `manage_vlans` is false is not managed, when host names are distinct. */
  lemma UnmanagedNotListed(hosts: seq<HostEntry>, k: nat)
    requires UniqueNames(hosts) && k < |hosts| && !ManagesVlans(hosts[k])
    ensures hosts[k].name !in ManagedHosts(hosts)
  {
    ManagedHostsMembers(hosts, hosts[k].name);
  }

  /** The managed names are distinct when the inventory's names are. */
  lemma {:induction false} ManagedHostsDistinct(hosts: seq<HostEntry>)
    requires UniqueNames(hosts)
    ensures forall i, j :: 0 <= i < j < |ManagedHosts(hosts)| ==> ManagedHosts(hosts)[i] != ManagedHosts(hosts)[j]
    decreases |hosts|
  {
    if hosts != [] {
      var tail := hosts[1..];
      assert UniqueNames(tail) by {
        forall i, j | 0 <= i < j < |tail| ensures tail[i].name != tail[j].name {
          assert tail[i] == hosts[i + 1] && tail[j] == hosts[j + 1];
        }
      }
      ManagedHostsDistinct(tail);
      if ManagesVlans(hosts[0]) {
        ManagedHostsMembers(tail, hosts[0].name);
        forall i | 0 <= i < |tail| ensures tail[i].name != hosts[0].name {
          assert tail[i] == hosts[i + 1];
        }
        var m := ManagedHosts(hosts);
        assert m == [hosts[0].name] + ManagedHosts(tail);
        forall i, j | 0 <= i < j < |m| ensures m[i] != m[j] {
          if i == 0 {
            assert m[j] == ManagedHosts(tail)[j - 1];
          } else {
            assert m[i] == ManagedHosts(tail)[i - 1] && m[j] == ManagedHosts(tail)[j - 1];
          }
        }
      }
    }
  }

  /** The playbook of a fan-out task on one host (no switch port). */
  function NetworkPlaybook(task: string, host: string, segmentationId: string): Playbook {
    LegacyPlaybook(task, Some(host), segmentationId, None)
  }

  /** One run of `task` per listed host, in order. */
  function RunEvents(task: string, names: seq<string>, segmentationId: string, inventory: Inventory): (evs: seq<Event>)
    ensures |evs| == |names|
    ensures forall i :: 0 <= i < |names| ==> evs[i] == RunPlaybook(NetworkPlaybook(task, names[i], segmentationId), inventory)
  {
    seq(|names|, i requires 0 <= i < |names| => RunPlaybook(NetworkPlaybook(task, names[i], segmentationId), inventory))
  }

  lemma RunEventsCons(task: string, n: string, names: seq<string>, segmentationId: string, inventory: Inventory)
    ensures RunEvents(task, [n] + names, segmentationId, inventory)
         == [RunPlaybook(NetworkPlaybook(task, n, segmentationId), inventory)] + RunEvents(task, names, segmentationId, inventory)
  {
    var a := RunEvents(task, [n] + names, segmentationId, inventory);
    var b := [RunPlaybook(NetworkPlaybook(task, n, segmentationId), inventory)] + RunEvents(task, names, segmentationId, inventory);
    forall i | 0 <= i < |a| ensures a[i] == b[i] {
      if i > 0 {
        assert ([n] + names)[i] == names[i - 1];
      }
    }
  }

  /** The engine answers `task` on `host` with a failure. */
  predicate HostFails(task: string, host: string, segmentationId: string, inventory: Inventory,
                      respond: (Playbook, Inventory) -> RunnerResult) {
    Failed(respond(NetworkPlaybook(task, host, segmentationId), inventory))
  }

  /**
   * The create loop: each managed host in order gets `create_network`; the
   * first failure ends the loop with `MechanismDriverError` wrapping it.
   */
  function CreateSweep(hosts: seq<HostEntry>, segmentationId: string, inventory: Inventory,
                       respond: (Playbook, Inventory) -> RunnerResult): Trace
    decreases |hosts|
  {
    if hosts == [] then Trace([], Pass)
    else if !ManagesVlans(hosts[0]) then CreateSweep(hosts[1..], segmentationId, inventory, respond)
    else
      var pb := NetworkPlaybook("create_network", hosts[0].name, segmentationId);
      var res := CheckOutcome(respond(pb, inventory));
      if res.Fail? then Trace([RunPlaybook(pb, inventory)], Fail(MechanismDriverError(res.error)))
      else
        var rest := CreateSweep(hosts[1..], segmentationId, inventory, respond);
        Trace([RunPlaybook(pb, inventory)] + rest.events, rest.outcome)
  }

  /** `create_network_postcommit`: nothing unless the network is a VLAN network with a segmentation id. */
  function CreateNetworkTrace(network: Network, inventory: Inventory, respond: (Playbook, Inventory) -> RunnerResult): Trace {
    if Handled(network) then CreateSweep(inventory.hosts, network.segmentationId.value, inventory, respond)
    else Trace([], Pass)
  }

  /**
   * `delete_network_postcommit`: every managed host gets `delete_network`;
   * a failure is only logged, so the runs do not depend on the engine's
   * answers and the handler always ends normally.
   */
  function DeleteNetworkTrace(network: Network, inventory: Inventory): seq<Event> {
    if Handled(network) then RunEvents("delete_network", ManagedHosts(inventory.hosts), network.segmentationId.value, inventory)
    else []
  }

  /** No listed host fails `task`. */
  predicate NoneFails(task: string, names: seq<string>, segmentationId: string, inventory: Inventory,
                      respond: (Playbook, Inventory) -> RunnerResult) {
    forall j :: 0 <= j < |names| ==> !HostFails(task, names[j], segmentationId, inventory, respond)
  }

  /** `names[k]` is the first listed host on which `task` fails. */
  predicate FirstFailure(task: string, names: seq<string>, k: int, segmentationId: string, inventory: Inventory,
                         respond: (Playbook, Inventory) -> RunnerResult) {
    && 0 <= k < |names|
    && HostFails(task, names[k], segmentationId, inventory, respond)
    && NoneFails(task, names[..k], segmentationId, inventory, respond)
  }

  /** The first step of the create sweep over a non-empty host list. */
  lemma CreateSweepHead(hosts: seq<HostEntry>, seg: string, inventory: Inventory,
                        respond: (Playbook, Inventory) -> RunnerResult)
    requires hosts != []
    ensures var t := CreateSweep(hosts, seg, inventory, respond);
            var rest := CreateSweep(hosts[1..], seg, inventory, respond);
            var n := hosts[0].name;
            && ManagedHosts(hosts) == (if ManagesVlans(hosts[0]) then [n] else []) + ManagedHosts(hosts[1..])
            && (!ManagesVlans(hosts[0]) ==> t == rest)
            && (ManagesVlans(hosts[0]) && HostFails("create_network", n, seg, inventory, respond) ==>
                  t == Trace([RunPlaybook(NetworkPlaybook("create_network", n, seg), inventory)],
                             Fail(MechanismDriverError(CheckOutcome(respond(NetworkPlaybook("create_network", n, seg), inventory)).error))))
            && (ManagesVlans(hosts[0]) && !HostFails("create_network", n, seg, inventory, respond) ==>
                  t == Trace([RunPlaybook(NetworkPlaybook("create_network", n, seg), inventory)] + rest.events, rest.outcome))
  {
  }

  /** Prefixing a passing host keeps "none fails". */
  lemma NoneFailsCons(task: string, n: string, names: seq<string>, seg: string, inventory: Inventory,
                      respond: (Playbook, Inventory) -> RunnerResult)
    ensures NoneFails(task, [n] + names, seg, inventory, respond)
            <==> !HostFails(task, n, seg, inventory, respond) && NoneFails(task, names, seg, inventory, respond)
  {
    var s := [n] + names;
    assert s[0] == n;
    assert forall j :: 0 <= j < |names| ==> s[j + 1] == names[j];
    if !HostFails(task, n, seg, inventory, respond) && NoneFails(task, names, seg, inventory, respond) {
      forall j | 0 <= j < |s| ensures !HostFails(task, s[j], seg, inventory, respond) {
        if j > 0 {
          assert s[j] == names[j - 1];
        }
      }
    }
  }

  /** Create ends normally iff no managed host fails. */
  lemma {:induction false} CreateSweepPasses(hosts: seq<HostEntry>, seg: string, inventory: Inventory,
                                             respond: (Playbook, Inventory) -> RunnerResult)
    ensures CreateSweep(hosts, seg, inventory, respond).outcome.Pass?
            <==> NoneFails("create_network", ManagedHosts(hosts), seg, inventory, respond)
    decreases |hosts|
  {
    if hosts != [] {
      CreateSweepHead(hosts, seg, inventory, respond);
      CreateSweepPasses(hosts[1..], seg, inventory, respond);
      NoneFailsCons("create_network", hosts[0].name, ManagedHosts(hosts[1..]), seg, inventory, respond);
      assert [] + ManagedHosts(hosts[1..]) == ManagedHosts(hosts[1..]);
    }
  }

  /** A create that ends normally has run every managed host, in order. */
  lemma {:induction false} CreateSweepRunsAll(hosts: seq<HostEntry>, seg: string, inventory: Inventory,
                                              respond: (Playbook, Inventory) -> RunnerResult)
    requires CreateSweep(hosts, seg, inventory, respond).outcome.Pass?
    ensures CreateSweep(hosts, seg, inventory, respond).events == RunEvents("create_network", ManagedHosts(hosts), seg, inventory)
    decreases |hosts|
  {
    if hosts != [] {
      CreateSweepHead(hosts, seg, inventory, respond);
      CreateSweepRunsAll(hosts[1..], seg, inventory, respond);
      RunEventsCons("create_network", hosts[0].name, ManagedHosts(hosts[1..]), seg, inventory);
      assert [] + ManagedHosts(hosts[1..]) == ManagedHosts(hosts[1..]);
    }
  }

  /**
   * A create that raises has run exactly the managed hosts up to and
   * including the first failing one, and none after it, and raises
   * `MechanismDriverError` wrapping that host's error.
   */
  lemma {:induction false} CreateSweepStopsAtFirstFailure(hosts: seq<HostEntry>, seg: string, inventory: Inventory,
                                                          respond: (Playbook, Inventory) -> RunnerResult)
    requires CreateSweep(hosts, seg, inventory, respond).outcome.Fail?
    ensures var t := CreateSweep(hosts, seg, inventory, respond);
            var m := ManagedHosts(hosts);
            exists k :: (FirstFailure("create_network", m, k, seg, inventory, respond)
              && t.events == RunEvents("create_network", m[..k + 1], seg, inventory)
              && t.outcome.error == MechanismDriverError(
                   CheckOutcome(respond(NetworkPlaybook("create_network", m[k], seg), inventory)).error))
    decreases |hosts|
  {
    CreateSweepHead(hosts, seg, inventory, respond);
    var tail := hosts[1..];
    var t := CreateSweep(hosts, seg, inventory, respond);
    var m := ManagedHosts(hosts);
    var mt := ManagedHosts(tail);
    if !ManagesVlans(hosts[0]) {
      assert m == mt;
      CreateSweepStopsAtFirstFailure(tail, seg, inventory, respond);
    } else {
      var n := hosts[0].name;
      assert m == [n] + mt;
      if HostFails("create_network", n, seg, inventory, respond) {
        assert m[..0] == [];
        assert m[..1] == [n];
        RunEventsCons("create_network", n, [], seg, inventory);
        assert [n] + [] == [n];
        assert FirstFailure("create_network", m, 0, seg, inventory, respond);
      } else {
        CreateSweepStopsAtFirstFailure(tail, seg, inventory, respond);
        var rest := CreateSweep(tail, seg, inventory, respond);
        var k :| FirstFailure("create_network", mt, k, seg, inventory, respond)
              && rest.events == RunEvents("create_network", mt[..k + 1], seg, inventory)
              && rest.outcome.error == MechanismDriverError(
                   CheckOutcome(respond(NetworkPlaybook("create_network", mt[k], seg), inventory)).error);
        FirstFailureCons("create_network", n, mt, k, seg, inventory, respond);
        assert FirstFailure("create_network", m, k + 1, seg, inventory, respond);
      }
    }
  }

  /** A passing host in front moves the first failure one place on, and its run in front of the runs so far. */
  lemma FirstFailureCons(task: string, n: string, names: seq<string>, k: int, seg: string, inventory: Inventory,
                         respond: (Playbook, Inventory) -> RunnerResult)
    requires !HostFails(task, n, seg, inventory, respond) && FirstFailure(task, names, k, seg, inventory, respond)
    ensures FirstFailure(task, [n] + names, k + 1, seg, inventory, respond)
    ensures ([n] + names)[k + 1] == names[k]
    ensures [RunPlaybook(NetworkPlaybook(task, n, seg), inventory)] + RunEvents(task, names[..k + 1], seg, inventory)
         == RunEvents(task, ([n] + names)[..k + 2], seg, inventory)
  {
    var m := [n] + names;
    assert m[..k + 2] == [n] + names[..k + 1];
    assert m[..k + 1] == [n] + names[..k];
    RunEventsCons(task, n, names[..k + 1], seg, inventory);
    NoneFailsCons(task, n, names[..k], seg, inventory, respond);
  }

  /** Every fan-out run goes to a managed host, with the handler's own switch task. */
  lemma FanOutTargetsManagedHosts(network: Network, inventory: Inventory, respond: (Playbook, Inventory) -> RunnerResult)
    ensures forall e :: e in CreateNetworkTrace(network, inventory, respond).events ==>
              TargetTask(e) == Some("create_network") && TargetHost(e).Some? && TargetHost(e).value in ManagedHosts(inventory.hosts)
    ensures forall e :: e in DeleteNetworkTrace(network, inventory) ==>
              TargetTask(e) == Some("delete_network") && TargetHost(e).Some? && TargetHost(e).value in ManagedHosts(inventory.hosts)
  {
    if Handled(network) {
      var seg := network.segmentationId.value;
      var m := ManagedHosts(inventory.hosts);
      var names := CreateRunNames(inventory.hosts, seg, inventory, respond);
      CreateSweepRunNames(inventory.hosts, seg, inventory, respond);
      RunEventsTargets("create_network", names, seg, inventory);
      RunEventsTargets("delete_network", m, seg, inventory);
    }
  }

  /** The hosts the create sweep runs `create_network` on, in order. */
  function CreateRunNames(hosts: seq<HostEntry>, seg: string, inventory: Inventory,
                          respond: (Playbook, Inventory) -> RunnerResult): seq<string>
    decreases |hosts|
  {
    if hosts == [] then []
    else if !ManagesVlans(hosts[0]) then CreateRunNames(hosts[1..], seg, inventory, respond)
    else if HostFails("create_network", hosts[0].name, seg, inventory, respond) then [hosts[0].name]
    else [hosts[0].name] + CreateRunNames(hosts[1..], seg, inventory, respond)
  }

  /** The create sweep's runs are `create_network` on managed hosts only. */
  lemma {:induction false} CreateSweepRunNames(hosts: seq<HostEntry>, seg: string, inventory: Inventory,
                                               respond: (Playbook, Inventory) -> RunnerResult)
    ensures CreateSweep(hosts, seg, inventory, respond).events
         == RunEvents("create_network", CreateRunNames(hosts, seg, inventory, respond), seg, inventory)
    ensures forall n :: n in CreateRunNames(hosts, seg, inventory, respond) ==> n in ManagedHosts(hosts)
    decreases |hosts|
  {
    if hosts != [] {
      CreateSweepHead(hosts, seg, inventory, respond);
      CreateSweepRunNames(hosts[1..], seg, inventory, respond);
      var n := hosts[0].name;
      var rest := CreateRunNames(hosts[1..], seg, inventory, respond);
      if ManagesVlans(hosts[0]) {
        if HostFails("create_network", n, seg, inventory, respond) {
          RunEventsCons("create_network", n, [], seg, inventory);
          assert [n] + [] == [n];
        } else {
          RunEventsCons("create_network", n, rest, seg, inventory);
        }
      } else {
        assert [] + ManagedHosts(hosts[1..]) == ManagedHosts(hosts[1..]);
      }
    }
  }

  /** Every run in `RunEvents` carries that switch task and targets one of the listed hosts. */
  lemma RunEventsTargets(task: string, names: seq<string>, seg: string, inventory: Inventory)
    ensures forall e :: e in RunEvents(task, names, seg, inventory) ==>
              TargetTask(e) == Some(task) && TargetHost(e).Some? && TargetHost(e).value in names
  {
    var evs := RunEvents(task, names, seg, inventory);
    forall e | e in evs ensures TargetTask(e) == Some(task) && TargetHost(e).Some? && TargetHost(e).value in names {
      var i :| 0 <= i < |evs| && evs[i] == e;
      assert TargetHost(e) == Some(names[i]);
    }
  }

  /** A host whose `manage_vlans` is false receives neither a create nor a delete task. */
  lemma UnmanagedHostUntouched(network: Network, inventory: Inventory, respond: (Playbook, Inventory) -> RunnerResult, k: nat)
    requires UniqueNames(inventory.hosts) && k < |inventory.hosts| && !ManagesVlans(inventory.hosts[k])
    ensures forall e :: e in CreateNetworkTrace(network, inventory, respond).events + DeleteNetworkTrace(network, inventory) ==>
              TargetHost(e) != Some(inventory.hosts[k].name)
  {
    FanOutTargetsManagedHosts(network, inventory, respond);
    UnmanagedNotListed(inventory.hosts, k);
  }

  /** A network that is not a VLAN network with a segmentation id dispatches nothing. */
  lemma UnhandledNetworkNoTasks(network: Network, inventory: Inventory, respond: (Playbook, Inventory) -> RunnerResult)
    requires network.networkType != "vlan" || network.segmentationId == Some("") || network.segmentationId.None?
    ensures CreateNetworkTrace(network, inventory, respond) == Trace([], Pass)
    ensures DeleteNetworkTrace(network, inventory) == []
  {
  }

  /** How many runs of `task` target `host`. */
  function CountRuns(evs: seq<Event>, task: string, host: string): nat
    decreases |evs|
  {
    if evs == [] then 0
    else (if TargetTask(evs[0]) == Some(task) && TargetHost(evs[0]) == Some(host) then 1 else 0) + CountRuns(evs[1..], task, host)
  }

  lemma {:induction false} CountRunsAppend(a: seq<Event>, b: seq<Event>, task: string, host: string)
    ensures CountRuns(a + b, task, host) == CountRuns(a, task, host) + CountRuns(b, task, host)
    decreases |a|
  {
    if a == [] {
      assert a + b == b;
    } else {
      assert (a + b)[1..] == a[1..] + b;
      CountRunsAppend(a[1..], b, task, host);
    }
  }

  /** A fan-out run targets its host with its task. */
  lemma NetworkRunTargets(task: string, n: string, seg: string, inventory: Inventory)
    ensures TargetTask(RunPlaybook(NetworkPlaybook(task, n, seg), inventory)) == Some(task)
    ensures TargetHost(RunPlaybook(NetworkPlaybook(task, n, seg), inventory)) == Some(n)
  {
  }

  /** Dropping the first name drops the first run. */
  lemma RunEventsTail(task: string, names: seq<string>, seg: string, inventory: Inventory)
    requires names != []
    ensures RunEvents(task, names, seg, inventory)[1..] == RunEvents(task, names[1..], seg, inventory)
  {
    var a := RunEvents(task, names, seg, inventory)[1..];
    var b := RunEvents(task, names[1..], seg, inventory);
    forall i | 0 <= i < |a| ensures a[i] == b[i] {
      assert names[1..][i] == names[i + 1];
    }
  }

  /** Over distinct names, `task` runs once on each listed host, nothing else, and no other task runs. */
  lemma {:induction false} CountRunEvents(task: string, names: seq<string>, seg: string, inventory: Inventory, t: string, host: string)
    requires forall i, j :: 0 <= i < j < |names| ==> names[i] != names[j]
    ensures CountRuns(RunEvents(task, names, seg, inventory), t, host) == if t == task && host in names then 1 else 0
    decreases |names|
  {
    var evs := RunEvents(task, names, seg, inventory);
    if names != [] {
      var tail := names[1..];
      RunEventsTail(task, names, seg, inventory);
      NetworkRunTargets(task, names[0], seg, inventory);
      assert forall i, j :: 0 <= i < j < |tail| ==> tail[i] != tail[j] by {
        forall i, j | 0 <= i < j < |tail| ensures tail[i] != tail[j] {
          assert tail[i] == names[i + 1] && tail[j] == names[j + 1];
        }
      }
      CountRunEvents(task, tail, seg, inventory, t, host);
      assert CountRuns(evs, t, host)
          == (if t == task && host == names[0] then 1 else 0) + CountRuns(RunEvents(task, tail, seg, inventory), t, host);
      forall j | 0 <= j < |tail| ensures tail[j] != names[0] {
        assert tail[j] == names[j + 1];
      }
      assert host in names <==> host == names[0] || host in tail by {
        assert names == [names[0]] + tail;
      }
    }
  }

  /**
   * After a create that succeeded and the delete of the same network, each
   * managed host has received exactly one create and one delete task, and
   * every other host none.
   */
  lemma CreateThenDeleteOncePerHost(network: Network, inventory: Inventory, respond: (Playbook, Inventory) -> RunnerResult, host: string)
    requires UniqueNames(inventory.hosts) && Handled(network)
    requires CreateNetworkTrace(network, inventory, respond).outcome.Pass?
    ensures var evs := CreateNetworkTrace(network, inventory, respond).events + DeleteNetworkTrace(network, inventory);
            var expected := if host in ManagedHosts(inventory.hosts) then 1 else 0;
            CountRuns(evs, "create_network", host) == expected && CountRuns(evs, "delete_network", host) == expected
  {
    var seg := network.segmentationId.value;
    var m := ManagedHosts(inventory.hosts);
    CreateSweepRunsAll(inventory.hosts, seg, inventory, respond);
    ManagedHostsDistinct(inventory.hosts);
    var c := RunEvents("create_network", m, seg, inventory);
    var d := RunEvents("delete_network", m, seg, inventory);
    CountRunsAppend(c, d, "create_network", host);
    CountRunsAppend(c, d, "delete_network", host);
    CountRunEvents("create_network", m, seg, inventory, "create_network", host);
    CountRunEvents("create_network", m, seg, inventory, "delete_network", host);
    CountRunEvents("delete_network", m, seg, inventory, "create_network", host);
    CountRunEvents("delete_network", m, seg, inventory, "delete_network", host);
  }

  // ---------------------------------------------------------------------
  // Port handlers
  // ---------------------------------------------------------------------

  /** `vlan_access_port(op, port, network)` as seen from the driver: its runs, and its failure re-raised. */
  function AccessPortTrace(op: PortOp, port: Port, network: Network, macMap: map<string, string>,
                           inventory: Inventory, respond: (Playbook, Inventory) -> RunnerResult): Trace {
    var c := AccessPortCall(op, port, network, macMap);
    var o := CallOutcome(c, inventory, respond);
    Trace(CallEvents(c, inventory), if o.Fail? then Fail(Raised(o.error)) else Pass)
  }

  /** What `update_port_postcommit` decides to do. */
  datatype PortAction = SignalComplete(objectId: string) | RemovePort(port: Port) | NoAction

  /**
   * The decision of `update_port_postcommit` as written: a bound port is
   * signalled complete, but under the id of `context.network.current`; a
   * port that was bound and no longer is is removed from the switch using
   * its original state (local-link information included).
   */
  function UpdatePortAction(context: PortContext): PortAction {
    if IsPortBound(context.current) then SignalComplete(context.network.id)
    else if IsPortBound(context.original) then RemovePort(context.original)
    else NoAction
  }

  /** The same decision, signalling completion under the port's own id. */
  function IntendedUpdatePortAction(context: PortContext): PortAction {
    if IsPortBound(context.current) then SignalComplete(context.current.id)
    else if IsPortBound(context.original) then RemovePort(context.original)
    else NoAction
  }

  /** The calls an update action makes. */
  function ActionTrace(action: PortAction, network: Network, macMap: map<string, string>,
                       inventory: Inventory, respond: (Playbook, Inventory) -> RunnerResult): Trace {
    match action
    case SignalComplete(id) => Trace([ProvisioningComplete(id, PortResource, AnsibleNetworkingEntity)], Pass)
    case RemovePort(p) => AccessPortTrace(Remove, p, network, macMap, inventory, respond)
    case NoAction => Trace([], Pass)
  }

  function UpdatePortTrace(context: PortContext, macMap: map<string, string>,
                           inventory: Inventory, respond: (Playbook, Inventory) -> RunnerResult): Trace {
    ActionTrace(UpdatePortAction(context), context.network, macMap, inventory, respond)
  }

  function IntendedUpdatePortTrace(context: PortContext, macMap: map<string, string>,
                                   inventory: Inventory, respond: (Playbook, Inventory) -> RunnerResult): Trace {
    ActionTrace(IntendedUpdatePortAction(context), context.network, macMap, inventory, respond)
  }

  /** No provisioning-complete signal in a list of calls. */
  predicate NoCompletion(evs: seq<Event>) {
    forall i :: 0 <= i < |evs| ==> !evs[i].ProvisioningComplete?
  }

  /**
   * Exactly one branch of `update_port_postcommit` happens: a bound port is
   * signalled complete under its id, with no switch task; else a port that was bound
   * gets one `delete_port` run for its original first link (none when that
   * link list is empty) and no signal; else nothing happens at all.
   */
  lemma UpdatePortDecision(context: PortContext, macMap: map<string, string>, inventory: Inventory,
                           respond: (Playbook, Inventory) -> RunnerResult)
    ensures var t := IntendedUpdatePortTrace(context, macMap, inventory, respond);
            && (IsPortBound(context.current) ==>
                  t == Trace([ProvisioningComplete(context.current.id, PortResource, AnsibleNetworkingEntity)], Pass))
            && (!IsPortBound(context.current) && IsPortBound(context.original) ==>
                  && NoCompletion(t.events)
                  && t.events == CallEvents(AccessPortCall(Remove, context.original, context.network, macMap), inventory)
                  && |t.events| == (if context.original.localLinkInfo == [] || context.original.localLinkInfo[0].switchId.ExplicitNone? then 0 else 1)
                  && (forall i :: 0 <= i < |t.events| ==> TargetTask(t.events[i]) == Some("delete_port"))
                  && (context.original.localLinkInfo != [] && context.original.localLinkInfo[0].switchId.ExplicitNone? ==>
                        t.outcome == Fail(Raised(AttributeError))))
            && (!IsPortBound(context.current) && !IsPortBound(context.original) ==> t == Trace([], Pass))
  {
    if !IsPortBound(context.current) && IsPortBound(context.original) && context.original.localLinkInfo != []
       && !context.original.localLinkInfo[0].switchId.ExplicitNone? {
      AccessPortTask(Remove, context.original, context.network, macMap);
    }
  }

  /**
   * As written, the completion signal carries the network's id: it releases
   * a block on `X` exactly when the network's id happens to be `X`.
   */
  lemma UpdateSignalsNetworkId(context: PortContext, macMap: map<string, string>, inventory: Inventory,
                               respond: (Playbook, Inventory) -> RunnerResult, x: string)
    requires IsPortBound(context.current)
    ensures UpdatePortTrace(context, macMap, inventory, respond).events == [ProvisioningComplete(x, PortResource, AnsibleNetworkingEntity)]
            <==> context.network.id == x
  {
  }

  /** Binding blocks the port under its id, unless reading its `switch_id` raised first. */
  lemma BindBlocksPortId(context: PortContext, macMap: map<string, string>, inventory: Inventory,
                         respond: (Playbook, Inventory) -> RunnerResult)
    requires IsPortSupported(context.current) && context.current.localLinkInfo != []
    ensures context.current.localLinkInfo[0].switchId.ExplicitNone? <==> BindPortTrace(context, macMap, inventory, respond).events == []
    ensures !context.current.localLinkInfo[0].switchId.ExplicitNone? ==>
              BindPortTrace(context, macMap, inventory, respond).events[0]
              == AddProvisioningComponent(context.current.id, PortResource, AnsibleNetworkingEntity)
  {
  }

  /**
   * A concrete case: port `port-1` on network `net-1` is bound; binding
   * blocked `port-1`, but the update signals completion for `net-1`, so the
   * block on the port is never released.
   */
  lemma BindBlockNotReleased()
    ensures var port := Port("port-1", VnicBaremetal, VifTypeOther, [LinkInfo(Absent, Some("sw"), Some("eth1"))]);
            var ctx := PortContext(port, port, Network("net-1", "vlan", Some("10")), [Segment("seg-1")]);
            var respond := (pb: Playbook, inv: Inventory) => RunnerResult("successful", None, []);
            && BindPortTrace(ctx, map[], Inventory([]), respond).events[0]
                 == AddProvisioningComponent("port-1", PortResource, AnsibleNetworkingEntity)
            && UpdatePortTrace(ctx, map[], Inventory([]), respond).events
                 == [ProvisioningComplete("net-1", PortResource, AnsibleNetworkingEntity)]
            && ProvisioningComplete("port-1", PortResource, AnsibleNetworkingEntity)
                 !in UpdatePortTrace(ctx, map[], Inventory([]), respond).events
  {
  }

  /**
   * With the port's own id, the update of a bound port releases exactly the
   * block that binding the same port added.
   */
  lemma IntendedUpdateReleasesBindBlock(bind: PortContext, update: PortContext, macMap: map<string, string>,
                                        inventory: Inventory, respond: (Playbook, Inventory) -> RunnerResult)
    requires IsPortSupported(bind.current) && bind.current.localLinkInfo != []
    requires !bind.current.localLinkInfo[0].switchId.ExplicitNone?
    requires update.current.id == bind.current.id && IsPortBound(update.current)
    ensures var added := BindPortTrace(bind, macMap, inventory, respond).events[0];
            && added.AddProvisioningComponent?
            && IntendedUpdatePortTrace(update, macMap, inventory, respond).events
               == [ProvisioningComplete(added.objectId, added.objectType, added.entity)]
  {
  }

  /** Both decisions agree whenever the current port is not bound, and otherwise differ only in the id. */
  lemma IntendedUpdateDiffersOnlyInId(context: PortContext)
    ensures !IsPortBound(context.current) ==> UpdatePortAction(context) == IntendedUpdatePortAction(context)
    ensures IsPortBound(context.current) ==>
              UpdatePortAction(context) == SignalComplete(context.network.id)
              && IntendedUpdatePortAction(context) == SignalComplete(context.current.id)
  {
  }

  /** `delete_port_postcommit`: remove the current port from the switch only when it is bound. */
  function DeletePortTrace(context: PortContext, macMap: map<string, string>,
                           inventory: Inventory, respond: (Playbook, Inventory) -> RunnerResult): Trace {
    if IsPortBound(context.current) then AccessPortTrace(Remove, context.current, context.network, macMap, inventory, respond)
    else Trace([], Pass)
  }

  /**
   * A delete dispatches at most one `delete_port`, for the current port's
   * first link, and only when it is bound; an explicit None `switch_id`
   * raises instead; it never signals.
   */
  lemma DeletePortOnlyWhenBound(context: PortContext, macMap: map<string, string>, inventory: Inventory,
                                respond: (Playbook, Inventory) -> RunnerResult)
    ensures var t := DeletePortTrace(context, macMap, inventory, respond);
            && NoCompletion(t.events)
            && (t.events != [] <==> (IsPortBound(context.current) && context.current.localLinkInfo != []
                                     && !context.current.localLinkInfo[0].switchId.ExplicitNone?))
            && (t.events != [] ==> t.events == [RunPlaybook(CallPlaybook(AccessPortCall(Remove, context.current, context.network, macMap).call), inventory)])
            && (t.events != [] ==> TargetTask(t.events[0]) == Some("delete_port"))
            && (IsPortBound(context.current) && context.current.localLinkInfo != [] && context.current.localLinkInfo[0].switchId.ExplicitNone? ==>
                  t.outcome == Fail(Raised(AttributeError)))
  {
    if IsPortBound(context.current) && context.current.localLinkInfo != [] && !context.current.localLinkInfo[0].switchId.ExplicitNone? {
      AccessPortTask(Remove, context.current, context.network, macMap);
    }
  }

  /**
   * `bind_port`: nothing for an unsupported port or one without local-link
   * information; `AttributeError` before anything else when the first link's
   * `switch_id` is an explicit None (the switch-name lookup calls `.upper()`
   * on it); otherwise add the provisioning block, assign the port, and bind
   * to the first segment with VIF type `other`. A failed assign is re-raised
   * before binding; with no segment `segments[0]` raises.
   */
  function BindPortTrace(context: PortContext, macMap: map<string, string>,
                         inventory: Inventory, respond: (Playbook, Inventory) -> RunnerResult): Trace {
    var port := context.current;
    if !(IsPortSupported(port) && port.localLinkInfo != []) then Trace([], Pass)
    else if port.localLinkInfo[0].switchId.ExplicitNone? then Trace([], Fail(Raised(AttributeError)))
    else
      var add := AddProvisioningComponent(port.id, PortResource, AnsibleNetworkingEntity);
      var assign := AccessPortTrace(Assign, port, context.network, macMap, inventory, respond);
      if assign.outcome.Fail? then Trace([add] + assign.events, assign.outcome)
      else if context.segmentsToBind == [] then Trace([add] + assign.events, Fail(IndexError))
      else Trace([add] + assign.events + [SetBinding(context.segmentsToBind[0].id, VifTypeOther)], Pass)
  }

  /**
   * Binding order: without a supported port and local-link information
   * nothing happens; an explicit None `switch_id` raises `AttributeError`
   * with nothing done; otherwise the block comes first, then one `update_port`
   * run on the resolved switch, then (only when that run succeeded and a
   * segment exists) `set_binding` to the first segment with VIF type
   * `other`. Binding never signals completion.
   */
  lemma BindPortOrder(context: PortContext, macMap: map<string, string>, inventory: Inventory,
                      respond: (Playbook, Inventory) -> RunnerResult)
    ensures var t := BindPortTrace(context, macMap, inventory, respond);
            var port := context.current;
            && NoCompletion(t.events)
            && (!(IsPortSupported(port) && port.localLinkInfo != []) ==> t == Trace([], Pass))
            && (IsPortSupported(port) && port.localLinkInfo != [] && port.localLinkInfo[0].switchId.ExplicitNone? ==>
                  t == Trace([], Fail(Raised(AttributeError))))
            && (IsPortSupported(port) && port.localLinkInfo != [] && !port.localLinkInfo[0].switchId.ExplicitNone? ==>
                  var pb := CallPlaybook(AccessPortCall(Assign, port, context.network, macMap).call);
                  && |t.events| >= 2
                  && t.events[0] == AddProvisioningComponent(port.id, PortResource, AnsibleNetworkingEntity)
                  && t.events[1] == RunPlaybook(pb, inventory)
                  && TargetTask(t.events[1]) == Some("update_port")
                  && TargetHost(t.events[1]) == ResolveSwitch(port.localLinkInfo[0], macMap)
                  && (t.outcome.Pass? <==> !Failed(respond(pb, inventory)) && context.segmentsToBind != [])
                  && (t.outcome.Pass? ==> t.events == t.events[..2] + [SetBinding(context.segmentsToBind[0].id, VifTypeOther)])
                  && (t.outcome.Fail? ==> |t.events| == 2))
  {
    var port := context.current;
    if IsPortSupported(port) && port.localLinkInfo != [] && !port.localLinkInfo[0].switchId.ExplicitNone? {
      AccessPortTask(Assign, port, context.network, macMap);
      var t := BindPortTrace(context, macMap, inventory, respond);
      assert NoCompletion(t.events) by {
        forall i | 0 <= i < |t.events| ensures !t.events[i].ProvisioningComplete? {
          assert i <= 2;
        }
      }
    }
  }

  // ---------------------------------------------------------------------
  // The driver
  // ---------------------------------------------------------------------

  class AnsibleMechanismDriver {
    const ansnet: AnsibleNetworking

    /** `initialize` with the `AnsibleNetworking` object it creates from the configured inventory. */
    constructor (ansnet: AnsibleNetworking)
      ensures this.ansnet == ansnet
    {
      this.ansnet := ansnet;
    }

    method CreateNetworkPostcommit(context: NetworkContext) returns (r: Outcome<DriverError>)
      modifies ansnet.world
      ensures ansnet.world.events == old(ansnet.world.events)
                + CreateNetworkTrace(context.current, ansnet.inventory, ansnet.world.respond).events
      ensures r == CreateNetworkTrace(context.current, ansnet.inventory, ansnet.world.respond).outcome
    {
      var network := context.current;
      r := Pass;
      if !(network.networkType == "vlan" && Truthy(network.segmentationId)) {
        return;
      }
      var segmentationId := network.segmentationId.value;
      var hosts := ansnet.inventory.hosts;
      ghost var inventory := ansnet.inventory;
      ghost var respond := ansnet.world.respond;
      ghost var total := CreateSweep(hosts, segmentationId, inventory, respond);
      ghost var done: seq<Event> := [];
      var i := 0;
      assert hosts[0..] == hosts;
      while i < |hosts|
        invariant 0 <= i <= |hosts|
        invariant ansnet.world.events == old(ansnet.world.events) + done
        invariant total == Prefixed(done, CreateSweep(hosts[i..], segmentationId, inventory, respond))
      {
        var host := hosts[i];
        CreateSweepAdvance(hosts, i, done, segmentationId, inventory, respond);
        if ManagesVlans(host) {
          var res := ansnet.CreateNetwork(host.name, segmentationId);
          done := done + [RunPlaybook(NetworkPlaybook("create_network", host.name, segmentationId), inventory)];
          if res.Fail? {
            r := Fail(MechanismDriverError(res.error));
            return;
          }
        }
        i := i + 1;
      }
    }

    method DeleteNetworkPostcommit(context: NetworkContext)
      modifies ansnet.world
      ensures ansnet.world.events == old(ansnet.world.events) + DeleteNetworkTrace(context.current, ansnet.inventory)
    {
      var network := context.current;
      if !(network.networkType == "vlan" && Truthy(network.segmentationId)) {
        return;
      }
      var segmentationId := network.segmentationId.value;
      var hosts := ansnet.inventory.hosts;
      ghost var inventory := ansnet.inventory;
      var i := 0;
      while i < |hosts|
        invariant 0 <= i <= |hosts|
        invariant ansnet.world.events == old(ansnet.world.events)
                    + RunEvents("delete_network", ManagedHosts(hosts[..i]), segmentationId, inventory)
      {
        var host := hosts[i];
        ManagedHostsAppend(hosts[..i], host);
        assert hosts[..i + 1] == hosts[..i] + [host];
        if ManagesVlans(host) {
          var res := ansnet.DeleteNetwork(host.name, segmentationId);
          // a failure is logged and the loop goes on
          RunEventsSnoc("delete_network", ManagedHosts(hosts[..i]), host.name, segmentationId, inventory);
        }
        i := i + 1;
      }
      assert hosts[..i] == hosts;
    }

    method UpdatePortPostcommit(context: PortContext) returns (r: Outcome<DriverError>)
      modifies ansnet.world
      ensures ansnet.world.events == old(ansnet.world.events)
                + IntendedUpdatePortTrace(context, ansnet.macMap, ansnet.inventory, ansnet.world.respond).events
      ensures r == IntendedUpdatePortTrace(context, ansnet.macMap, ansnet.inventory, ansnet.world.respond).outcome
    {
      var network := context.network;
      r := Pass;
      if IsPortBound(context.current) {
        // completion is signalled under the port's id (the source passes the network's)
        ansnet.world.Record(ProvisioningComplete(context.current.id, PortResource, AnsibleNetworkingEntity));
      } else if IsPortBound(context.original) {
        var res := ansnet.VlanAccessPort(Remove, context.original, network);
        if res.Fail? {
          r := Fail(Raised(res.error));
        }
      }
    }

    method DeletePortPostcommit(context: PortContext) returns (r: Outcome<DriverError>)
      modifies ansnet.world
      ensures ansnet.world.events == old(ansnet.world.events)
                + DeletePortTrace(context, ansnet.macMap, ansnet.inventory, ansnet.world.respond).events
      ensures r == DeletePortTrace(context, ansnet.macMap, ansnet.inventory, ansnet.world.respond).outcome
    {
      r := Pass;
      if IsPortBound(context.current) {
        var res := ansnet.VlanAccessPort(Remove, context.current, context.network);
        if res.Fail? {
          r := Fail(Raised(res.error));
        }
      }
    }

    method BindPort(context: PortContext) returns (r: Outcome<DriverError>)
      modifies ansnet.world
      ensures ansnet.world.events == old(ansnet.world.events)
                + BindPortTrace(context, ansnet.macMap, ansnet.inventory, ansnet.world.respond).events
      ensures r == BindPortTrace(context, ansnet.macMap, ansnet.inventory, ansnet.world.respond).outcome
    {
      var port := context.current;
      var localLinkInfo := port.localLinkInfo;
      if !(IsPortSupported(port) && |localLinkInfo| > 0) {
        return Pass;
      }
      if localLinkInfo[0].switchId.ExplicitNone? {
        // `local_link_info[0].get('switch_id', '').upper()` on None
        return Fail(Raised(AttributeError));
      }
      // apart from that error, the switch name and segmentation id computed here only feed log messages
      var segments := context.segmentsToBind;
      ansnet.world.Record(AddProvisioningComponent(port.id, PortResource, AnsibleNetworkingEntity));
      var res := ansnet.VlanAccessPort(Assign, context.current, context.network);
      if res.Fail? {
        return Fail(Raised(res.error));
      }
      if |segments| == 0 {
        return Fail(IndexError);
      }
      ansnet.world.Record(SetBinding(segments[0].id, VifTypeOther));
      r := Pass;
    }
  }

  /** A trace with `done` recorded before it. */
  function Prefixed(done: seq<Event>, t: Trace): Trace {
    Trace(done + t.events, t.outcome)
  }

  /** One step of the create loop. */
  lemma CreateSweepStep(hosts: seq<HostEntry>, i: nat, seg: string, inventory: Inventory,
                        respond: (Playbook, Inventory) -> RunnerResult)
    requires i < |hosts|
    ensures var here := CreateSweep(hosts[i..], seg, inventory, respond);
            var next := CreateSweep(hosts[i + 1..], seg, inventory, respond);
            var ev := RunPlaybook(NetworkPlaybook("create_network", hosts[i].name, seg), inventory);
            var res := CheckOutcome(respond(NetworkPlaybook("create_network", hosts[i].name, seg), inventory));
            && (!ManagesVlans(hosts[i]) ==> here == next)
            && (ManagesVlans(hosts[i]) && res.Fail? ==> here == Trace([ev], Fail(MechanismDriverError(res.error))))
            && (ManagesVlans(hosts[i]) && res.Pass? ==> here == Trace([ev] + next.events, next.outcome))
  {
    assert hosts[i..][0] == hosts[i] && hosts[i..][1..] == hosts[i + 1..];
  }

  /** The create loop's step at position `i`, with the events already recorded in front. */
  lemma CreateSweepAdvance(hosts: seq<HostEntry>, i: nat, done: seq<Event>, seg: string, inventory: Inventory,
                           respond: (Playbook, Inventory) -> RunnerResult)
    requires i < |hosts|
    ensures var pb := NetworkPlaybook("create_network", hosts[i].name, seg);
            var res := CheckOutcome(respond(pb, inventory));
            var here := Prefixed(done, CreateSweep(hosts[i..], seg, inventory, respond));
            var done' := done + [RunPlaybook(pb, inventory)];
            && (!ManagesVlans(hosts[i]) ==> here == Prefixed(done, CreateSweep(hosts[i + 1..], seg, inventory, respond)))
            && (ManagesVlans(hosts[i]) && res.Fail? ==> here == Trace(done', Fail(MechanismDriverError(res.error))))
            && (ManagesVlans(hosts[i]) && res.Pass? ==> here == Prefixed(done', CreateSweep(hosts[i + 1..], seg, inventory, respond)))
  {
    CreateSweepStep(hosts, i, seg, inventory, respond);
    var ev := RunPlaybook(NetworkPlaybook("create_network", hosts[i].name, seg), inventory);
    var next := CreateSweep(hosts[i + 1..], seg, inventory, respond);
    assert done + ([ev] + next.events) == (done + [ev]) + next.events;
  }

  /** Extending the hosts by one extends the managed names by that host when it is managed. */
  lemma {:induction false} ManagedHostsAppend(hosts: seq<HostEntry>, h: HostEntry)
    ensures ManagedHosts(hosts + [h]) == ManagedHosts(hosts) + (if ManagesVlans(h) then [h.name] else [])
    decreases |hosts|
  {
    if hosts == [] {
      assert [] + [h] == [h];
      assert [h][1..] == [];
    } else {
      assert (hosts + [h])[1..] == hosts[1..] + [h];
      ManagedHostsAppend(hosts[1..], h);
    }
  }

  lemma RunEventsSnoc(task: string, names: seq<string>, n: string, seg: string, inventory: Inventory)
    ensures RunEvents(task, names + [n], seg, inventory)
         == RunEvents(task, names, seg, inventory) + [RunPlaybook(NetworkPlaybook(task, n, seg), inventory)]
  {
    var a := RunEvents(task, names + [n], seg, inventory);
    var b := RunEvents(task, names, seg, inventory) + [RunPlaybook(NetworkPlaybook(task, n, seg), inventory)];
    forall i | 0 <= i < |a| ensures a[i] == b[i] {
      if i < |names| {
        assert (names + [n])[i] == names[i];
      }
    }
  }
}
