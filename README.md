# networking-ansible reconciliation core in Dafny

This project models the reconciliation layer of networking-ansible. That
layer turns the framework's network and port lifecycle events into
switch-task invocations, which are playbooks of the `openstack-ml2` role run
by an automation engine. The model covers four parts:

- **Lifecycle coordinator** (`MechDriver`, from `ml2/mech_driver.py`).
  - Network create and delete fan out over every inventory host whose
    `manage_vlans` is not false.
  - Create raises at the first failing host. Delete logs each failure and
    goes on.
  - `bind_port`, `update_port_postcommit` and `delete_port_postcommit`
    decide on two port predicates, "supported" and "bound".
  - Binding orders its side effects: provisioning block, then assign, then
    `set_binding`.
- **Older task builder** (`Ansnet`, from `ansible_networking.py`).
  - It builds the upper-cased MAC→host alias table.
  - It derives the VLAN name, builds the one-play playbook and classifies
    the engine's answer.
  - `vlan_access_port` resolves the switch from local-link information.
- **Newer task builder** (`NetApi`, from `api.py`). It uses a closed
  variable set (`vlan_id`, optional `vlan_name`, optional
  `port_name`/`port_description`) and four task kinds.
- **Inventory munging** (`Conf`, from `config.py`).
  - Only `ansible:`-tagged sections are kept, and the tag is stripped.
  - Single-element option lists are unwrapped.
  - `manage_vlans` is coerced to a boolean.
  - Hosts are stored in a dictionary, and the MAC alias table is kept
    beside it.

Shared pieces:

- `Runner` holds the playbook records, the failure classification both
  builders use (`Check`), and the outside world.
- The outside world is the class `World`:
  - a fixed function `respond` stands for `ansible_runner.run`;
  - an event trace records every call, in order: playbook runs,
    `add_provisioning_component`, `provisioning_complete` and `set_binding`.
- `Hosts` holds the inventory. A Python dictionary keeps insertion order,
  and the fan-out walks it in that order, so the inventory is an ordered
  list of (name, variables) entries.
- `Neutron` holds the port and network descriptors.
- `Common` holds `Option`/`Result`/`Outcome`, Python truthiness, and the few
  string operations the code uses.

How the model is organised:

- Classes and methods stand for the objects that hold state:
  `AnsibleNetworking`, `NetworkingAnsible`, `Config` and
  `AnsibleMechanismDriver`.
- Each method is proved to produce exactly what a specification function
  gives. For the driver this is a `…Trace` function: the calls made, and
  how the handler ends.
- The decision rules are proved as lemmas about those functions.
- An exception the Python code raises is a `Fail`/`Failure` value.

## Model

| member | source | states |
|---|---|---|
| `Common.Upper` | networking_ansible/ansible_networking.py:37 | `str.upper` keeps the length and upper-cases each ASCII letter in place |
| `Common.UpperIgnoresCase` | networking_ansible/ansible_networking.py:128 | strings that differ only in letter case upper-case to the same key |
| `Common.AfterFirst` | networking_ansible/config.py:56 | `partition(sep)[2]` is a suffix of the input; for an input starting with `sep`, it is the input without `sep` |
| `Common.JoinSpace` | networking_ansible/ansible_networking.py:85 | `' '.join` of no lines is `''`; of one or more lines it is as long as the lines plus one separator between each two, and starts with the first line |
| `Common.JoinSpaceAppend` | networking_ansible/ansible_networking.py:85 | joining two non-empty lists of lines is joining each and putting one space between them |
| `Runner.Check` | networking_ansible/ansible_networking.py:83-86 | the run fails iff the status is `'failed'` or the stats carry a non-empty `failures` list; the error message is the space-joined stdout; otherwise the result is returned unchanged |
| `Runner.CheckOutcome` | networking_ansible/ansible_networking.py:88-92 | callers that drop the result fail exactly when `Check` fails, with the same error |
| `Runner.EitherSignalFails` | networking_ansible/api.py:71-74 | either failure signal alone is enough; with neither (no stats, or no `failures` key) the result passes |
| `Runner.World.Run` | networking_ansible/ansible_networking.py:80-82 | a run appends exactly one playbook event, and the answer is the engine's answer to that playbook and inventory |
| `Runner.World.Record` | networking_ansible/ml2/mech_driver.py:231-233 | a framework call appends exactly that event to the trace |
| `Ansnet.MacMapKeys` | networking_ansible/ansible_networking.py:35-38 | the alias table's keys are exactly the upper-cased MACs of the hosts that have a `mac` |
| `Ansnet.MacMapValues` | networking_ansible/ansible_networking.py:36-38 | every alias is the name of an inventory host |
| `Ansnet.MacMapFindsLastHost` | networking_ansible/ansible_networking.py:36-38 | a host's MAC maps to that host when no later host shares it; later hosts win |
| `Ansnet.VlanNameInjective` | networking_ansible/ansible_networking.py:53-56 | distinct segmentation ids never share a VLAN name, and `default` belongs to `'1'` alone |
| `Ansnet.LegacyPlaybook` | networking_ansible/ansible_networking.py:59-77 | one play on `host_name`, `gather_facts: no`, one task `do <task>` importing `tasks_from: task` of `openstack-ml2`; the vars are exactly `segmentation_name` (`default` for `'1'`, else `vlan<N>`) and `segmentation_id`, plus `port_name` and `port_description`, both equal to the switch port, iff that port is truthy |
| `Ansnet.LegacyPlaybookDeterminesCall` | networking_ansible/ansible_networking.py:59-77 | the playbook determines the switch task, the host, the segmentation id and the truthy switch port |
| `Ansnet.SwitchInfoWins` | networking_ansible/ansible_networking.py:129-135 | a truthy `switch_info` is used whatever the alias table holds |
| `Ansnet.ResolveIgnoresMacCase` | networking_ansible/ansible_networking.py:128-135 | `switch_id`s that differ only in letter case resolve to the same switch |
| `Ansnet.AccessPortCall` | networking_ansible/ansible_networking.py:125-127 | nothing is dispatched iff the port has no local-link information; `AttributeError` is raised iff the first link has an explicit `None` `switch_id`; otherwise the mapped task runs with that link's port, on the switch `ResolveSwitch` picks, with the network's segmentation id when truthy and `'1'` otherwise |
| `Ansnet.AccessPortUnknownMac` | networking_ansible/ansible_networking.py:129-142 | with a falsy `switch_info` and a MAC the alias table lacks, the task is still run, on host `switch_info` as it stands (None or `''`) |
| `Ansnet.AccessPortNoneSwitchIdRaises` | networking_ansible/ansible_networking.py:128 | a first link whose `switch_id` is an explicit `None` raises `AttributeError` before any task runs |
| `Ansnet.AccessPortDefaultVlan` | networking_ansible/ansible_networking.py:123 | a network with a falsy segmentation id is dispatched with id `'1'` and VLAN name `default` |
| `Ansnet.AccessPortTask` | networking_ansible/ansible_networking.py:105-106 | `assign` runs `update_port` and `remove` runs `delete_port`; a truthy `port_id` becomes `port_name` |
| `Ansnet.AccessPortFindsHostByMac` | networking_ansible/ansible_networking.py:128-135 | with no `switch_info`, a link whose `switch_id` matches a host's MAC in any letter case is routed to that host, when no later host declares the same MAC (the last one wins) |
| `Ansnet.AnsibleNetworking.constructor` | networking_ansible/ansible_networking.py:31-38 | keeps the inventory and builds the alias table from its hosts |
| `Ansnet.AnsibleNetworking.RunTask` | networking_ansible/ansible_networking.py:40-86 | builds the vars in place (port variables only for a truthy port), runs exactly that playbook once, and returns `Check` of the answer |
| `Ansnet.AnsibleNetworking.CreateNetwork` | networking_ansible/ansible_networking.py:88-89 | one `create_network` run on the host with no port; fails iff the run failed |
| `Ansnet.AnsibleNetworking.DeleteNetwork` | networking_ansible/ansible_networking.py:91-92 | one `delete_network` run on the host with no port; fails iff the run failed |
| `Ansnet.AnsibleNetworking.VlanAccessPort` | networking_ansible/ansible_networking.py:94-153 | no event and a normal return without local-link information; `AttributeError` and no event for an explicit `None` `switch_id`; otherwise exactly one run of the mapped task on the resolved switch (possibly None), with the first link's port, and that run's error re-raised unchanged |
| `NetApi.ApiPlaybook` | networking_ansible/api.py:45-64 | the constant name `'Openstack Networking-Ansible: '`, `hosts` = hostname, `tasks_from` = task; the vars are `vlan_id` always (possibly None), `vlan_name` iff truthy, and `port_name`/`port_description` (both the port) iff the port is truthy |
| `NetApi.ApiPlaybookNameIgnoresTask` | networking_ansible/api.py:46 | the playbook name is the same for every task, while different tasks give different playbooks |
| `NetApi.CreateVlanPlaybook` | networking_ansible/api.py:76-83 | `create_vlan` carries only `vlan_id` |
| `NetApi.CreateVlanIgnoresName` | networking_ansible/api.py:83 | the `vlan_name` argument is never forwarded: the playbook is the same for every name, and differs from one that forwards a truthy name |
| `NetApi.DeleteVlanPlaybook` | networking_ansible/api.py:85-91 | `delete_vlan` carries `vlan_id` and no port |
| `NetApi.UpdateAccessPortPlaybook` | networking_ansible/api.py:93-103 | `update_access_port` carries both the port and `vlan_id` |
| `NetApi.DeletePortPlaybook` | networking_ansible/api.py:105-111 | `delete_port` carries the port, and `vlan_id` is None |
| `NetApi.NetworkingAnsible.RunTask` | networking_ansible/api.py:31-74 | builds the vars in place, runs exactly that playbook once, and returns `Check` of the answer |
| `NetApi.NetworkingAnsible.CreateVlan` | networking_ansible/api.py:76-83 | one run of the `create_vlan` playbook; its classified answer |
| `NetApi.NetworkingAnsible.DeleteVlan` | networking_ansible/api.py:85-91 | one run of the `delete_vlan` playbook; its classified answer |
| `NetApi.NetworkingAnsible.UpdateAccessPort` | networking_ansible/api.py:93-103 | one run of the `update_access_port` playbook; its classified answer |
| `NetApi.NetworkingAnsible.DeletePort` | networking_ansible/api.py:105-111 | one run of the `delete_port` playbook; its classified answer |
| `Conf.BooleanVocabulary` | networking_ansible/config.py:58-60 | `'0'` and `'false'` give False; `'true'` and `'Yes'` give True; letter case does not matter; `'maybe'` and `''` are rejected |
| `Conf.TaggedSections` | networking_ansible/config.py:50-51 | exactly the sections whose names start with `ansible:` are kept, and no more of them than there are sections |
| `Conf.TaggedSectionsAppend` | networking_ansible/config.py:50-51 | the filter keeps the parser's order: filtering two runs of sections one after the other gives the first run's tagged sections followed by the second's |
| `Conf.HostId` | networking_ansible/config.py:56 | a tagged section's host id is its name without the tag |
| `Conf.Unwrap` | networking_ansible/config.py:57 | the same keys, each with the first element of its list, as a string |
| `Conf.CoerceBooleans` | networking_ansible/config.py:58-60 | succeeds iff every present listed option is a recognised boolean; then the keys are kept, listed options become booleans and the rest are unchanged; otherwise it fails with an offending value |
| `Conf.DeviceConfig` | networking_ansible/config.py:57-60 | `IndexError` iff some value list is empty; a `ValueError` carrying the value iff `manage_vlans` is unrecognised; otherwise the same keys, with `manage_vlans` a boolean and every other option its first string, and no key added |
| `Conf.PlainDevice` | networking_ansible/config.py:57 | an ordinary one-value option comes out as that string |
| `Conf.DeviceConfigWellFormed` | networking_ansible/config.py:57-60 | a built device has a boolean `manage_vlans` and only strings otherwise |
| `Conf.StoreHostLookup` | networking_ansible/config.py:61 | dictionary assignment: the id now maps to the new config, every other id keeps its entry, and no entry is invented |
| `Conf.StoreHostNames` | networking_ansible/config.py:61 | the names after storing are the old names and the id |
| `Conf.StoreHostOrder` | networking_ansible/config.py:61 | an existing id keeps its position and a new id goes last |
| `Conf.StoreHostUnique` | networking_ansible/config.py:61 | ids stay distinct |
| `Conf.LaterDeviceReplaces` | networking_ansible/config.py:61 | a later entry with an existing id replaces its variables in place; nothing else in the inventory changes |
| `Conf.AddDeviceKeepsGood` | networking_ansible/config.py:61-64 | storing a device keeps these facts: ids distinct, hosts well formed, every alias names a host, every host's MAC aliased |
| `Conf.AddDevicesGood` | networking_ansible/config.py:55-64 | one file's tagged sections keep those facts |
| `Conf.AddDevicesNames` | networking_ansible/config.py:55-61 | one file adds exactly its sections' ids to the inventory's names |
| `Conf.LoadFilesShape` | networking_ansible/config.py:40-64 | loading the files keeps those facts and adds exactly their tagged ids |
| `Conf.LoadedInventory` | networking_ansible/config.py:37-64 | from scratch: exactly the tagged ids, without duplicates, every `mac` a string, every alias a host id, and every host's MAC aliased |
| `Conf.LoadFilesAppend` | networking_ansible/config.py:40 | files are processed one after another; an error stops everything after it |
| `Conf.UnreadableFileSkipped` | networking_ansible/config.py:44-47 | a file whose parse raised `IOError` with nothing read contributes no host, and the files after it still load |
| `Conf.StaleMacAlias` | networking_ansible/config.py:61-64 | for any two MACs that differ in upper case, files defining host `sw` first with one and then with the other load to the second MAC alone in the inventory, while the table keeps both aliases; so it differs from the table built from the final inventory |
| `Conf.AddDeviceMacMap` | networking_ansible/config.py:62-64 | storing a device with a string `mac` aliases its upper-cased MAC to its id, keeps every other alias and adds only that key; without one the table is unchanged |
| `Conf.MacMapOfSnoc` | networking_ansible/ansible_networking.py:35-37 | the `AnsibleNetworking` table of a list with one more host is the old table plus that host's MAC, when it has one |
| `Conf.AddDevicesMacMap` | networking_ansible/config.py:55-64 | one file's sections extend the alias table of the devices loaded so far by their own devices, in order |
| `Conf.LoadFilesMacMap` | networking_ansible/config.py:40-64 | the files extend the alias table of the devices loaded so far by every device they define, in order |
| `Conf.LoadedMacMap` | networking_ansible/config.py:37-64 | from scratch, the alias table is the `AnsibleNetworking` table of every loaded device in order (repeats included): a MAC is aliased iff some loaded device carried it, and it names the last such device |
| `Conf.MacFileLoads` | networking_ansible/config.py:50-64 | a file with the single section `[ansible:sw]`, `mac = v`, stores exactly that device and loading continues with the remaining files |
| `Conf.Config.constructor` | networking_ansible/config.py:37-38 | both dictionaries start empty |
| `Conf.Config.Load` | networking_ansible/config.py:40-64 | the loop over files and tagged sections reaches exactly the state the file-by-file definition gives, or raises its first error |
| `Conf.Config.LoadSections` | networking_ansible/config.py:55-64 | the loop over one file's tagged sections reaches exactly the state the section-by-section definition gives, or raises the first section's error |
| `Conf.Config.AddSection` | networking_ansible/config.py:55-64 | one section: strip the tag, unwrap, coerce, store, alias the MAC; or raise the section's error |
| `Conf.CoerceLoop` | networking_ansible/config.py:58-60 | the loop over the boolean options computes `CoerceBooleans` |
| `MechDriver.BoundMeansBaremetalOther` | networking_ansible/ml2/mech_driver.py:250-275 | bound iff VNIC type `baremetal` and VIF type `other`, so bound implies supported |
| `MechDriver.ManagedHostsMembers` | networking_ansible/ml2/mech_driver.py:64-66 | a name is managed iff some host of that name has `manage_vlans` absent or true |
| `MechDriver.UnmanagedNotListed` | networking_ansible/ml2/mech_driver.py:66 | a host whose `manage_vlans` is false is not managed |
| `MechDriver.ManagedHostsDistinct` | networking_ansible/ml2/mech_driver.py:64 | managed names are distinct, because dictionary keys are |
| `MechDriver.CreateSweepHead` | networking_ansible/ml2/mech_driver.py:64-84 | one loop step: skip an unmanaged host; a failing managed host ends the sweep with `MechanismDriverError`; a passing one is followed by the rest |
| `MechDriver.CreateSweepPasses` | networking_ansible/ml2/mech_driver.py:68-84 | create ends normally iff no managed host's run fails |
| `MechDriver.CreateSweepRunsAll` | networking_ansible/ml2/mech_driver.py:64-73 | a create that ends normally ran `create_network` on every managed host, once each, in inventory order |
| `MechDriver.CreateSweepStopsAtFirstFailure` | networking_ansible/ml2/mech_driver.py:75-84 | a create that raises ran exactly the managed hosts up to the first failing one, none after it, and raises `MechanismDriverError` wrapping that host's error |
| `MechDriver.FanOutTargetsManagedHosts` | networking_ansible/ml2/mech_driver.py:64-69 | every create or delete run targets a managed host with that handler's task |
| `MechDriver.CreateSweepRunNames` | networking_ansible/ml2/mech_driver.py:64-73 | the create sweep's events are the `create_network` runs on the hosts it reaches, all of them managed |
| `MechDriver.UnmanagedHostUntouched` | networking_ansible/ml2/mech_driver.py:107-109 | a host with `manage_vlans` false never receives a create or delete task |
| `MechDriver.UnhandledNetworkNoTasks` | networking_ansible/ml2/mech_driver.py:104 | a non-VLAN network, or one with a None or `''` segmentation id, dispatches nothing |
| `MechDriver.CountRunEvents` | networking_ansible/ml2/mech_driver.py:107-112 | over distinct hosts, the fan-out gives each listed host exactly one run of its task and no other task |
| `MechDriver.CreateThenDeleteOncePerHost` | networking_ansible/ml2/mech_driver.py:43-123 | after a successful create and the delete of the same network, each managed host got exactly one create and one delete, and every other host none |
| `MechDriver.UpdatePortDecision` | networking_ansible/ml2/mech_driver.py:141-149 | (corrected trace; as written the id is the network's, see `MechDriver.UpdateSignalsNetworkId`) exactly one branch. Bound now: one completion signal for the port and no switch task. Else bound before: no signal, and the `delete_port` for the original port's first link, which is one run, or none with `AttributeError` for an explicit `None` `switch_id`, or none without local-link information. Else: nothing |
| `MechDriver.UpdateSignalsNetworkId` | networking_ansible/ml2/mech_driver.py:140-144 | as written, the completion signal releases a block on `X` exactly when the network's id is `X` |
| `MechDriver.BindBlocksPortId` | networking_ansible/ml2/mech_driver.py:231-233 | for a supported port with local-link information, binding adds nothing iff the first link's `switch_id` is an explicit `None`; otherwise its first call adds the provisioning block under the port's id |
| `MechDriver.BindBlockNotReleased` | networking_ansible/ml2/mech_driver.py:140-144 | concretely, for port `port-1` on network `net-1`, binding blocks `port-1` but the update as written signals `net-1` |
| `MechDriver.IntendedUpdateReleasesBindBlock` | networking_ansible/ml2/mech_driver.py:231-233 | with the port's id, the update of a bound port releases exactly the block its binding added |
| `MechDriver.IntendedUpdateDiffersOnlyInId` | networking_ansible/ml2/mech_driver.py:140-149 | the corrected decision equals the written one except for the id in the completion signal |
| `MechDriver.DeletePortOnlyWhenBound` | networking_ansible/ml2/mech_driver.py:163-166 | a delete for the current port's first link runs iff the port is bound, has local-link information and its first link's `switch_id` is not an explicit `None` (that case raises `AttributeError`); it is one `delete_port` run and never a signal |
| `MechDriver.BindPortOrder` | networking_ansible/ml2/mech_driver.py:209-248 | nothing for an unsupported port or one with no local-link information. `AttributeError` and no call when the first link's `switch_id` is an explicit `None`. Otherwise the block comes first, then one `update_port` run on the resolved switch, then `set_binding(segments[0], 'other')`. The binding happens iff the run succeeded and a segment exists. Never a completion signal |
| `MechDriver.CreateSweepStep` | networking_ansible/ml2/mech_driver.py:64-84 | the create loop's step at position `i`, stated on the remaining hosts |
| `MechDriver.ManagedHostsAppend` | networking_ansible/ml2/mech_driver.py:107-109 | the delete loop's step: one more host adds its name iff it is managed |
| `MechDriver.AnsibleMechanismDriver.constructor` | networking_ansible/ml2/mech_driver.py:37-41 | the driver holds the `AnsibleNetworking` object it dispatches through |
| `MechDriver.AnsibleMechanismDriver.CreateNetworkPostcommit` | networking_ansible/ml2/mech_driver.py:43-84 | the loop appends exactly the create trace and ends as it does |
| `MechDriver.AnsibleMechanismDriver.DeleteNetworkPostcommit` | networking_ansible/ml2/mech_driver.py:86-123 | the loop appends one `delete_network` per managed host, whatever the engine answers, and never raises |
| `MechDriver.AnsibleMechanismDriver.UpdatePortPostcommit` | networking_ansible/ml2/mech_driver.py:125-149 | appends exactly the corrected update trace (see Findings) and ends as it does |
| `MechDriver.AnsibleMechanismDriver.DeletePortPostcommit` | networking_ansible/ml2/mech_driver.py:151-166 | appends exactly the delete-port trace and ends as it does |
| `MechDriver.AnsibleMechanismDriver.BindPort` | networking_ansible/ml2/mech_driver.py:168-248 | appends exactly the bind trace (`AttributeError` before any call for an explicit `None` `switch_id`; else block, assign, binding) and ends as it does |

## Left out

- The automation engine (`ansible_runner.run`) is a fixed function of the
  playbook and inventory. Timing, concurrency and the `pexpect_use_poll`
  setting are not modelled. One engine answer per playbook is assumed, so
  two identical runs get the same answer.
- The framework's `provisioning_blocks`, `set_binding` and `_plugin_context`
  become trace events. The block bookkeeping itself is not modelled.
- All logging is left out. That covers the `LOG.*` calls and the message
  templates in `vlan_access_port`.
- `bind_port` computes the switch name and the segmentation id for its log
  messages. Only the one effect of that code is modelled: an explicit `None`
  `switch_id` makes `switch_id.upper()` raise `AttributeError` before the
  provisioning block is added. The values themselves are not recomputed.
- Parsing configuration files and reading `CONF.config_file` are left out.
  The parsed `sections` of each file are the input.
- A Python segmentation id may be an `int`. Only strings are modelled, and
  `None`/`''` stand for the falsy values. An `int` 1 would give `vlan1`
  rather than `default`, and that is not captured.
- An absent local-link list, a `None` one and an empty one are all the
  empty list. A missing `switch_info` or `port_id` key and an explicit
  `None` are both `None`. `switch_id` keeps three states, absent, explicit
  `None` and a string, because `.get('switch_id', '')` gives `''` only for
  the absent key.
- `port['binding:profile']` and `network['provider:segmentation_id']` are
  read by subscript, so an absent key would raise `KeyError`. That error is
  not modelled. An absent segmentation id counts as `None`, and an absent
  profile as one without local-link information. The framework always
  supplies both keys.
- A `None` stats value, the empty dict and a missing `failures` key all
  mean "no failures".
- `str.upper`/`str.lower` are modelled on ASCII letters only.
- The `Boolean` type's vocabulary is `true/1/on/yes` and `false/0/off/no`
  in any letter case. A non-ASCII word is not modelled.
- `Ansnet.AccessPortCall`, `Ansnet.AnsibleNetworking.VlanAccessPort`: the
  operation is the datatype `Assign | Remove`. The `KeyError` an unknown
  `assign_remove` string would raise has no caller and is not modelled.
- `Conf.Config.Load`: when an error escapes `__init__`, the partially
  filled state is left unspecified, because the object is then discarded.
- `Conf.DeviceConfig`: `IndexError` does not say which option had the
  empty list. The options are a map, and the order Python would visit them
  in is not modelled.
- `initialize`, `build_ansible_inventory`, the trunk driver, the two
  exception classes (here error variants), and the tempest and OVS
  material are outside this model.

## Findings

| source | as written | input that shows it | evidently intended | confidence | as-written member | corrected member |
|---|---|---|---|---|---|---|
| networking_ansible/ml2/mech_driver.py:140-144 | `update_port_postcommit` signals `provisioning_complete` with `context.network.current['id']`, the network's id | port `port-1`, bound (baremetal, VIF type `other`), on network `net-1`: `bind_port` adds a block for `port-1`, but the update signals `net-1`, so the port's block is never released by this driver. The test fixture gives the port and its network the same id, which hides it | signal completion with the port's own id, `context.current['id']` | not executed | `MechDriver.BindBlockNotReleased` (on `MechDriver.UpdatePortAction`; in general `MechDriver.UpdateSignalsNetworkId`) | `MechDriver.IntendedUpdateReleasesBindBlock` (on `MechDriver.IntendedUpdatePortAction`), used by `MechDriver.AnsibleMechanismDriver.UpdatePortPostcommit` |
