/**
 * The switch inventory: `{'all': {'hosts': {host_name: {option: value}}}}`.
 * A Python dict keeps insertion order, and the driver's fan-out walks it in
 * that order, so the hosts are an ordered list of (name, variables) entries.
 */
module Hosts {
  import opened Common

  /** A host variable: a string as read from the configuration, or a coerced boolean. */
  datatype Value = Str(s: string) | Bool(b: bool)

  type HostVars = map<string, Value>

  datatype HostEntry = HostEntry(name: string, vars: HostVars)

  /** `inventory['all']['hosts']`, in dictionary order. */
  datatype Inventory = Inventory(hosts: seq<HostEntry>)

  /** Python truthiness of a host variable. */
  predicate ValueTruthy(v: Value) {
    match v
    case Str(s) => s != ""
    case Bool(b) => b
  }

  /** `host.get('manage_vlans', True)`: an absent flag counts as true. */
  predicate ManagesVlans(h: HostEntry) {
    "manage_vlans" in h.vars ==> ValueTruthy(h.vars["manage_vlans"])
  }

  function Names(hosts: seq<HostEntry>): (r: seq<string>)
    ensures |r| == |hosts|
    ensures forall i :: 0 <= i < |hosts| ==> r[i] == hosts[i].name
  {
    seq(|hosts|, i requires 0 <= i < |hosts| => hosts[i].name)
  }

  /** The keys of a dictionary are distinct. */
  predicate UniqueNames(hosts: seq<HostEntry>) {
    forall i, j :: 0 <= i < j < |hosts| ==> hosts[i].name != hosts[j].name
  }

  /** `hosts[name]` read as a dictionary lookup: the variables of the entry with that name. */
  function Lookup(hosts: seq<HostEntry>, name: string): Option<HostVars> {
    if hosts == [] then None
    else if hosts[0].name == name then Some(hosts[0].vars)
    else Lookup(hosts[1..], name)
  }

  lemma NamesCons(h: HostEntry, rest: seq<HostEntry>)
    ensures Names([h] + rest) == [h.name] + Names(rest)
  {
    var a := Names([h] + rest);
    var b := [h.name] + Names(rest);
    forall i | 0 <= i < |a| ensures a[i] == b[i] {
      if i > 0 {
        assert ([h] + rest)[i] == rest[i - 1];
      }
    }
  }

  /** Every `mac` variable is a string, so that `h['mac'].upper()` is defined. */
  predicate MacsAreStrings(hosts: seq<HostEntry>) {
    forall i :: 0 <= i < |hosts| && "mac" in hosts[i].vars ==> hosts[i].vars["mac"].Str?
  }
}
