/**
 * Inventory munging (`Config.__init__`): every parsed configuration file
 * contributes its sections tagged `ansible:`; each becomes a host whose id
 * is the section name after the tag, whose option lists are unwrapped to
 * their first element and whose `manage_vlans` is coerced to a boolean.
 * Hosts are stored in a dictionary (a later file replaces an earlier entry
 * of the same id) and a MAC alias table is kept beside it.
 */
module Conf {
  import opened Common
  import opened Hosts
  import opened Ansnet

  const DriverTag: string := "ansible:"
  /** Options coerced to booleans. */
  const Booleans: seq<string> := ["manage_vlans"]

  /** The boolean vocabulary of the configuration library's `Boolean` type (compared in lower case). */
  const TrueValues: seq<string> := ["true", "1", "on", "yes"]
  const FalseValues: seq<string> := ["false", "0", "off", "no"]

  /** One section of a parsed file: its name and `{option: [value, ...]}`. */
  datatype Section = Section(name: string, options: map<string, seq<string>>)

  /**
   * The `sections` dictionary a parser filled for one file, in order, and
   * whether parsing raised `IOError` (which is only logged).
   */
  datatype ParsedFile = ParsedFile(sections: seq<Section>, ioError: bool)

  /** What escapes `__init__`: `v[0]` on an empty list, or a value `Boolean` rejects. */
  datatype ConfigError = IndexError | ValueError(value: Value)

  /** `self.inventory` and `self.mac_map`. */
  datatype ConfigState = ConfigState(hosts: seq<HostEntry>, macMap: map<string, string>)

  const Empty: ConfigState := ConfigState([], map[])

  // ---------------------------------------------------------------------
  // One section
  // ---------------------------------------------------------------------

  /** `types.Boolean()(value)`: a boolean stays as it is; a string is looked up case-insensitively. */
  function ToBoolean(v: Value): Option<bool> {
    match v
    case Bool(b) => Some(b)
    case Str(s) =>
      if Lower(s) in TrueValues then Some(true)
      else if Lower(s) in FalseValues then Some(false)
      else None
  }

  /** The values the configuration tests use, and letter case does not matter. */
  lemma BooleanVocabulary(a: string, b: string)
    requires Lower(a) == Lower(b)
    ensures ToBoolean(Str(a)) == ToBoolean(Str(b))
    ensures ToBoolean(Str("0")) == Some(false) && ToBoolean(Str("false")) == Some(false)
    ensures ToBoolean(Str("true")) == Some(true) && ToBoolean(Str("Yes")) == Some(true)
    ensures ToBoolean(Str("maybe")).None? && ToBoolean(Str("")).None?
  {
    assert Lower("0") == "0" && "0" !in TrueValues && "0" in FalseValues;
    assert Lower("false") == "false" && "false" !in TrueValues && "false" in FalseValues;
    assert Lower("true") == "true" && "true" in TrueValues;
    assert Lower("Yes") == "yes" && "yes" in TrueValues;
    assert Lower("maybe") == "maybe" && "maybe" !in TrueValues && "maybe" !in FalseValues;
    assert Lower("") == "" && "" !in TrueValues && "" !in FalseValues;
  }

  /** `k.startswith(self.driver_tag)`, in the order of the file's sections. */
  function TaggedSections(sections: seq<Section>): (r: seq<Section>)
    ensures forall i :: 0 <= i < |r| ==> StartsWith(r[i].name, DriverTag) && r[i] in sections
    ensures forall s :: s in sections && StartsWith(s.name, DriverTag) ==> s in r
    ensures |r| <= |sections|
  {
    if sections == [] then []
    else (if StartsWith(sections[0].name, DriverTag) then [sections[0]] else []) + TaggedSections(sections[1..])
  }

  /**
   * The filter keeps the parser's order: the tagged sections of two runs
   * of sections are those of the first run followed by those of the second.
   */
  lemma {:induction false} TaggedSectionsAppend(a: seq<Section>, b: seq<Section>)
    ensures TaggedSections(a + b) == TaggedSections(a) + TaggedSections(b)
    decreases |a|
  {
    if a == [] {
      assert a + b == b;
    } else {
      assert (a + b)[0] == a[0] && (a + b)[1..] == a[1..] + b;
      TaggedSectionsAppend(a[1..], b);
    }
  }

  /** `host.partition(self.driver_tag)[2]`, which for a tagged name is the name without its tag. */
  function HostId(sectionName: string): (id: string)
    ensures StartsWith(sectionName, DriverTag) ==> id == sectionName[|DriverTag|..]
  {
    AfterFirst(sectionName, DriverTag)
  }

  /** No option has an empty value list, so `v[0]` is defined for all of them. */
  predicate AllNonEmpty(options: map<string, seq<string>>) {
    forall k :: k in options ==> options[k] != []
  }

  /** `{k: v[0] for k, v in ...items()}` */
  function Unwrap(options: map<string, seq<string>>): (cfg: HostVars)
    requires AllNonEmpty(options)
    ensures cfg.Keys == options.Keys
    ensures forall k :: k in cfg ==> cfg[k] == Str(options[k][0])
  {
    map k | k in options :: Str(options[k][0])
  }

  /**
   * `for b in self.booleans: if b in dev_cfg: dev_cfg[b] = types.Boolean()(dev_cfg[b])`;
   * the failure carries the value `Boolean` rejected.
   */
  function CoerceBooleans(cfg: HostVars, bs: seq<string>): (r: Result<HostVars, Value>)
    ensures r.Success? <==> forall k :: k in bs && k in cfg ==> ToBoolean(cfg[k]).Some?
    ensures r.Failure? ==> exists k :: k in bs && k in cfg && ToBoolean(cfg[k]).None? && r.error == cfg[k]
    ensures r.Success? ==> r.value.Keys == cfg.Keys
    ensures r.Success? ==> forall k :: k in cfg ==>
              r.value[k] == (if k in bs then Bool(ToBoolean(cfg[k]).value) else cfg[k])
    decreases |bs|
  {
    if bs == [] then Success(cfg)
    else
      assert bs == [bs[0]] + bs[1..];
      if bs[0] in cfg then
      match ToBoolean(cfg[bs[0]])
      case None => Failure(cfg[bs[0]])
      case Some(b) =>
        var cfg' := cfg[bs[0] := Bool(b)];
        var r := CoerceBooleans(cfg', bs[1..]);
        assert r.Failure? ==> exists k :: k in bs && k in cfg && ToBoolean(cfg[k]).None? && r.error == cfg[k] by {
          if r.Failure? {
            var k :| k in bs[1..] && k in cfg' && ToBoolean(cfg'[k]).None? && r.error == cfg'[k];
            assert k != bs[0] && k in bs;
          }
        }
        r
    else CoerceBooleans(cfg, bs[1..])
  }

  /**
   * The device configuration built from one section: every option's first
   * value as a string, `manage_vlans` as a boolean; `IndexError` for an
   * empty value list, `ValueError` for an unrecognised boolean.
   */
  function DeviceConfig(options: map<string, seq<string>>): (r: Result<HostVars, ConfigError>)
    ensures r == Failure(IndexError) <==> !AllNonEmpty(options)
    ensures r.Success? <==> (AllNonEmpty(options) &&
              ("manage_vlans" in options ==> ToBoolean(Str(options["manage_vlans"][0])).Some?))
    ensures r.Failure? && r != Failure(IndexError) ==>
              "manage_vlans" in options && r.error == ValueError(Str(options["manage_vlans"][0]))
    ensures r.Success? ==> r.value.Keys == options.Keys
    ensures r.Success? ==> forall k :: k in options ==>
              r.value[k] == (if k == "manage_vlans" then Bool(ToBoolean(Str(options[k][0])).value) else Str(options[k][0]))
  {
    if !AllNonEmpty(options) then Failure(IndexError)
    else
      match CoerceBooleans(Unwrap(options), Booleans)
      case Failure(v) => Failure(ValueError(v))
      case Success(cfg) => Success(cfg)
  }

  // ---------------------------------------------------------------------
  // Storing a device
  // ---------------------------------------------------------------------

  /** `self.inventory[dev_id] = dev_cfg`: replace the entry in its place, or append a new one. */
  function StoreHost(hosts: seq<HostEntry>, id: string, cfg: HostVars): seq<HostEntry>
    decreases |hosts|
  {
    if hosts == [] then [HostEntry(id, cfg)]
    else if hosts[0].name == id then [HostEntry(id, cfg)] + hosts[1..]
    else [hosts[0]] + StoreHost(hosts[1..], id, cfg)
  }

  /**
   * Storing is a dictionary assignment: the id now maps to the new
   * configuration, every other id keeps its entry, and no entry is invented.
   */
  lemma {:induction false} StoreHostLookup(hosts: seq<HostEntry>, id: string, cfg: HostVars)
    ensures Lookup(StoreHost(hosts, id, cfg), id) == Some(cfg)
    ensures forall n :: n != id ==> Lookup(StoreHost(hosts, id, cfg), n) == Lookup(hosts, n)
    ensures var r := StoreHost(hosts, id, cfg); forall i :: 0 <= i < |r| ==> r[i] in hosts || r[i] == HostEntry(id, cfg)
    decreases |hosts|
  {
    if hosts != [] && hosts[0].name != id {
      var tail := hosts[1..];
      var rest := StoreHost(tail, id, cfg);
      StoreHostLookup(tail, id, cfg);
      var r := [hosts[0]] + rest;
      assert r[1..] == rest;
      forall i | 0 <= i < |r| ensures r[i] in hosts || r[i] == HostEntry(id, cfg) {
        if i > 0 {
          assert r[i] == rest[i - 1];
          if rest[i - 1] in tail {
            assert rest[i - 1] in hosts;
          }
        }
      }
    } else if hosts != [] {
      var r := [HostEntry(id, cfg)] + hosts[1..];
      assert r[1..] == hosts[1..];
      forall i | 0 <= i < |r| ensures r[i] in hosts || r[i] == HostEntry(id, cfg) {
        if i > 0 {
          assert r[i] == hosts[i];
        }
      }
      forall n | n != id ensures Lookup(r, n) == Lookup(hosts, n) {
      }
    }
  }

  /** Storing keeps the dictionary's order: an existing id keeps its position, a new one goes last. */
  lemma {:induction false} StoreHostOrder(hosts: seq<HostEntry>, id: string, cfg: HostVars)
    ensures Names(StoreHost(hosts, id, cfg)) == if id in Names(hosts) then Names(hosts) else Names(hosts) + [id]
    decreases |hosts|
  {
    var e := HostEntry(id, cfg);
    if hosts == [] {
      NamesCons(e, []);
      assert [e] + [] == [e];
    } else {
      var tail := hosts[1..];
      assert hosts == [hosts[0]] + tail;
      NamesCons(hosts[0], tail);
      if hosts[0].name == id {
        NamesCons(e, tail);
        assert Names(hosts)[0] == id;
      } else {
        var rest := StoreHost(tail, id, cfg);
        StoreHostOrder(tail, id, cfg);
        NamesCons(hosts[0], rest);
        assert id in Names(hosts) <==> id in Names(tail);
      }
    }
  }

  /** Storing keeps the dictionary's ids distinct. */
  lemma StoreHostUnique(hosts: seq<HostEntry>, id: string, cfg: HostVars)
    requires UniqueNames(hosts)
    ensures UniqueNames(StoreHost(hosts, id, cfg))
  {
    var r := StoreHost(hosts, id, cfg);
    StoreHostOrder(hosts, id, cfg);
    forall i, j | 0 <= i < j < |r| ensures r[i].name != r[j].name {
      assert Names(r)[i] == r[i].name && Names(r)[j] == r[j].name;
      if j < |hosts| {
        assert Names(hosts)[i] == hosts[i].name && Names(hosts)[j] == hosts[j].name;
      } else {
        assert Names(hosts)[i] == hosts[i].name;
        assert id !in Names(hosts);
      }
    }
  }

  /** The device has a string `mac`, so `dev_cfg['mac'].upper()` is defined. */
  predicate CfgHasMac(cfg: HostVars) {
    "mac" in cfg && cfg["mac"].Str?
  }

  /** Store the device and, when it has a `mac`, alias its upper-cased MAC to the id. */
  function AddDevice(st: ConfigState, id: string, cfg: HostVars): ConfigState {
    ConfigState(StoreHost(st.hosts, id, cfg),
                if CfgHasMac(cfg) then st.macMap[Upper(cfg["mac"].s) := id] else st.macMap)
  }

  /** The tagged sections of one file, in order; the first failing section aborts. */
  function AddDevices(st: ConfigState, hosts: seq<Section>): Result<ConfigState, ConfigError>
    decreases |hosts|
  {
    if hosts == [] then Success(st)
    else
      match DeviceConfig(hosts[0].options)
      case Failure(e) => Failure(e)
      case Success(cfg) => AddDevices(AddDevice(st, HostId(hosts[0].name), cfg), hosts[1..])
  }

  /** Continue with the remaining files after a file's devices, unless that failed. */
  function Then(res: Result<ConfigState, ConfigError>, files: seq<ParsedFile>): Result<ConfigState, ConfigError>
    decreases |files|, 1
  {
    if res.Failure? then res else LoadFiles(res.value, files)
  }

  /** The loop over `CONF.config_file`; a file's `IOError` flag does not change what is processed. */
  function LoadFiles(st: ConfigState, files: seq<ParsedFile>): Result<ConfigState, ConfigError>
    decreases |files|, 0
  {
    if files == [] then Success(st)
    else Then(AddDevices(st, TaggedSections(files[0].sections)), files[1..])
  }

  /** The host ids the files define, in order (repetitions included). */
  function TaggedIds(files: seq<ParsedFile>): seq<string>
    decreases |files|
  {
    if files == [] then [] else SectionIds(TaggedSections(files[0].sections)) + TaggedIds(files[1..])
  }

  function SectionIds(sections: seq<Section>): (r: seq<string>)
    ensures |r| == |sections| && forall i :: 0 <= i < |r| ==> r[i] == HostId(sections[i].name)
  {
    seq(|sections|, i requires 0 <= i < |sections| => HostId(sections[i].name))
  }

  // ---------------------------------------------------------------------
  // What the loaded state looks like
  // ---------------------------------------------------------------------

  /** Coerced options are booleans and every other option a string. */
  predicate CfgWellFormed(cfg: HostVars) {
    forall k :: k in cfg ==> (if k == "manage_vlans" then cfg[k].Bool? else cfg[k].Str?)
  }

  /**
   * The state `__init__` keeps: host ids are distinct, every host is well
   * formed, every alias names a host, and every host's upper-cased MAC is aliased.
   */
  predicate Good(st: ConfigState) {
    && UniqueNames(st.hosts)
    && (forall i :: 0 <= i < |st.hosts| ==> CfgWellFormed(st.hosts[i].vars))
    && (forall k :: k in st.macMap ==> st.macMap[k] in Names(st.hosts))
    && (forall i :: 0 <= i < |st.hosts| && HasMac(st.hosts[i]) ==> UpperMac(st.hosts[i]) in st.macMap)
  }

  /** A successful device configuration is well formed. */
  lemma DeviceConfigWellFormed(options: map<string, seq<string>>)
    requires DeviceConfig(options).Success?
    ensures CfgWellFormed(DeviceConfig(options).value)
  {
  }

  /** The names after storing are the old names and the id. */
  lemma StoreHostNames(hosts: seq<HostEntry>, id: string, cfg: HostVars)
    ensures forall n :: n in Names(StoreHost(hosts, id, cfg)) <==> n in Names(hosts) || n == id
  {
    StoreHostOrder(hosts, id, cfg);
    if id !in Names(hosts) {
      var a := Names(hosts);
      assert forall n :: n in a + [id] <==> n in a || n == id;
    }
  }

  lemma AddDeviceWellFormed(hosts: seq<HostEntry>, id: string, cfg: HostVars)
    requires forall i :: 0 <= i < |hosts| ==> CfgWellFormed(hosts[i].vars)
    requires CfgWellFormed(cfg)
    ensures var h := StoreHost(hosts, id, cfg); forall i :: 0 <= i < |h| ==> CfgWellFormed(h[i].vars)
  {
    var h := StoreHost(hosts, id, cfg);
    StoreHostLookup(hosts, id, cfg);
    forall i | 0 <= i < |h| ensures CfgWellFormed(h[i].vars) {
      if h[i] != HostEntry(id, cfg) {
        var j :| 0 <= j < |hosts| && hosts[j] == h[i];
      }
    }
  }

  lemma AddDeviceMacs(st: ConfigState, id: string, cfg: HostVars)
    requires forall i :: 0 <= i < |st.hosts| && HasMac(st.hosts[i]) ==> UpperMac(st.hosts[i]) in st.macMap
    ensures var st' := AddDevice(st, id, cfg);
            forall i :: 0 <= i < |st'.hosts| && HasMac(st'.hosts[i]) ==> UpperMac(st'.hosts[i]) in st'.macMap
  {
    var st' := AddDevice(st, id, cfg);
    var h := st'.hosts;
    StoreHostLookup(st.hosts, id, cfg);
    assert st.macMap.Keys <= st'.macMap.Keys;
    forall i | 0 <= i < |h| && HasMac(h[i]) ensures UpperMac(h[i]) in st'.macMap {
      if h[i] != HostEntry(id, cfg) {
        assert h[i] in st.hosts;
        var j :| 0 <= j < |st.hosts| && st.hosts[j] == h[i];
        assert UpperMac(st.hosts[j]) in st.macMap;
      } else {
        assert CfgHasMac(cfg) && UpperMac(h[i]) == Upper(cfg["mac"].s);
      }
    }
  }

  lemma {:induction false} AddDeviceKeepsGood(st: ConfigState, id: string, cfg: HostVars)
    requires Good(st) && CfgWellFormed(cfg)
    ensures Good(AddDevice(st, id, cfg))
  {
    var st' := AddDevice(st, id, cfg);
    var h := st'.hosts;
    StoreHostNames(st.hosts, id, cfg);
    StoreHostUnique(st.hosts, id, cfg);
    AddDeviceWellFormed(st.hosts, id, cfg);
    assert h == StoreHost(st.hosts, id, cfg);
    assert forall i :: 0 <= i < |h| ==> CfgWellFormed(h[i].vars);
    AddDeviceMacs(st, id, cfg);
    forall k | k in st'.macMap ensures st'.macMap[k] in Names(h) {
      if !(CfgHasMac(cfg) && k == Upper(cfg["mac"].s)) {
        assert st'.macMap[k] == st.macMap[k];
      }
    }
  }

  /** Loading sections keeps the state good. */
  lemma {:induction false} AddDevicesGood(st: ConfigState, hosts: seq<Section>)
    requires Good(st) && AddDevices(st, hosts).Success?
    ensures Good(AddDevices(st, hosts).value)
    decreases |hosts|
  {
    if hosts != [] {
      var cfg := DeviceConfig(hosts[0].options).value;
      DeviceConfigWellFormed(hosts[0].options);
      AddDeviceKeepsGood(st, HostId(hosts[0].name), cfg);
      AddDevicesGood(AddDevice(st, HostId(hosts[0].name), cfg), hosts[1..]);
    }
  }

  /** Loading sections adds exactly their ids to the host names. */
  lemma {:induction false} AddDevicesNames(st: ConfigState, hosts: seq<Section>)
    requires AddDevices(st, hosts).Success?
    ensures forall n :: n in Names(AddDevices(st, hosts).value.hosts) <==> n in Names(st.hosts) || n in SectionIds(hosts)
    decreases |hosts|
  {
    if hosts != [] {
      var id := HostId(hosts[0].name);
      var cfg := DeviceConfig(hosts[0].options).value;
      var st' := AddDevice(st, id, cfg);
      var final := AddDevices(st, hosts).value;
      assert final == AddDevices(st', hosts[1..]).value;
      StoreHostNames(st.hosts, id, cfg);
      AddDevicesNames(st', hosts[1..]);
      assert SectionIds(hosts) == [id] + SectionIds(hosts[1..]);
      forall n ensures n in Names(final.hosts) <==> n in Names(st.hosts) || n in SectionIds(hosts) {
        assert n in SectionIds(hosts) <==> n == id || n in SectionIds(hosts[1..]);
      }
    }
  }

  /** Loading files keeps the state good and adds exactly their tagged ids to the host names. */
  lemma {:induction false} LoadFilesShape(st: ConfigState, files: seq<ParsedFile>)
    requires Good(st) && LoadFiles(st, files).Success?
    ensures Good(LoadFiles(st, files).value)
    ensures forall n :: n in Names(LoadFiles(st, files).value.hosts) <==> n in Names(st.hosts) || n in TaggedIds(files)
    decreases |files|
  {
    if files != [] {
      var tagged := TaggedSections(files[0].sections);
      AddDevicesGood(st, tagged);
      AddDevicesNames(st, tagged);
      LoadFilesShape(AddDevices(st, tagged).value, files[1..]);
    }
  }

  /**
   * What `__init__` produces from scratch: exactly the tagged sections'
   * ids, without duplicates, every host well formed (so every `mac` is a
   * string, as the alias table of `AnsibleNetworking` needs), a sound alias table.
   */
  lemma LoadedInventory(files: seq<ParsedFile>)
    requires LoadFiles(Empty, files).Success?
    ensures var st := LoadFiles(Empty, files).value;
            && UniqueNames(st.hosts)
            && (forall n :: n in Names(st.hosts) <==> n in TaggedIds(files))
            && MacsAreStrings(st.hosts)
            && (forall k :: k in st.macMap ==> st.macMap[k] in Names(st.hosts))
            && (forall i :: 0 <= i < |st.hosts| && HasMac(st.hosts[i]) ==> UpperMac(st.hosts[i]) in st.macMap)
  {
    LoadFilesShape(Empty, files);
    var st := LoadFiles(Empty, files).value;
    forall i | 0 <= i < |st.hosts| && "mac" in st.hosts[i].vars ensures st.hosts[i].vars["mac"].Str? {
      assert CfgWellFormed(st.hosts[i].vars);
    }
  }

  /** Files run one after the other: loading `a + b` is loading `a`, then `b`. */
  lemma {:induction false} LoadFilesAppend(st: ConfigState, a: seq<ParsedFile>, b: seq<ParsedFile>)
    ensures LoadFiles(st, a + b) == Then(LoadFiles(st, a), b)
    decreases |a|
  {
    if a == [] {
      assert a + b == b;
    } else {
      assert (a + b)[1..] == a[1..] + b;
      var first := AddDevices(st, TaggedSections(a[0].sections));
      if first.Success? {
        LoadFilesAppend(first.value, a[1..], b);
      }
    }
  }

  /** A file whose parse raised `IOError` before any section was read contributes nothing; later files still load. */
  lemma UnreadableFileSkipped(st: ConfigState, before: seq<ParsedFile>, f: ParsedFile, after: seq<ParsedFile>)
    requires f.ioError && f.sections == []
    ensures LoadFiles(st, before + [f] + after) == LoadFiles(st, before + after)
  {
    LoadFilesAppend(st, before + [f], after);
    LoadFilesAppend(st, before, [f]);
    LoadFilesAppend(st, before, after);
    var r := LoadFiles(st, before);
    if r.Success? {
      assert TaggedSections(f.sections) == [];
      assert AddDevices(r.value, []) == Success(r.value);
      assert [f][1..] == [];
      assert LoadFiles(r.value, [f]) == Then(Success(r.value), []) == Success(r.value);
    }
  }

  /**
   * A later device with the id of an earlier one replaces its variables and
   * keeps its position; every other host is unchanged.
   */
  lemma LaterDeviceReplaces(st: ConfigState, id: string, cfg: HostVars, n: string)
    requires id in Names(st.hosts)
    ensures Names(AddDevice(st, id, cfg).hosts) == Names(st.hosts)
    ensures Lookup(AddDevice(st, id, cfg).hosts, id) == Some(cfg)
    ensures n != id ==> Lookup(AddDevice(st, id, cfg).hosts, n) == Lookup(st.hosts, n)
  {
    StoreHostOrder(st.hosts, id, cfg);
    StoreHostLookup(st.hosts, id, cfg);
  }

  /**
   * The alias table is only ever added to: a host redefined with a new MAC
   * leaves its old MAC aliased, so the table is not the one a task builder
   * derives from the final inventory.
   */
  lemma StaleMacAlias(a: string, b: string)
    requires Upper(a) != Upper(b)
    ensures LoadFiles(Empty, [MacFile(a), MacFile(b)]).Success?
    ensures var st := LoadFiles(Empty, [MacFile(a), MacFile(b)]).value;
            && st.hosts == [HostEntry("sw", map["mac" := Str(b)])]
            && st.macMap == map[Upper(a) := "sw", Upper(b) := "sw"]
            && st.macMap != MacMapOf(st.hosts)
  {
    TwoMacFilesLoad(a, b);
    var h := HostEntry("sw", map["mac" := Str(b)]);
    SingleHostMacMap(h);
    assert UpperMac(h) == Upper(b);
    assert Upper(a) !in MacMapOf([h]);
  }

  /** Both files load, the second replacing the first's entry and adding its MAC. */
  lemma TwoMacFilesLoad(a: string, b: string)
    ensures LoadFiles(Empty, [MacFile(a), MacFile(b)])
         == Success(ConfigState([HostEntry("sw", map["mac" := Str(b)])], map[Upper(a) := "sw", Upper(b) := "sw"]))
  {
    var s1 := ConfigState([HostEntry("sw", map["mac" := Str(a)])], map[Upper(a) := "sw"]);
    MacFileLoads(Empty, a, [MacFile(b)]);
    assert [MacFile(a)] + [MacFile(b)] == [MacFile(a), MacFile(b)];
    MacDevice(Empty, a);
    MacFileLoads(s1, b, []);
    assert [MacFile(b)] + [] == [MacFile(b)];
    MacDevice(s1, b);
  }

  /** Storing the `sw` device with a MAC into a state holding at most an `sw` entry. */
  lemma MacDevice(st: ConfigState, v: string)
    requires st.hosts == [] || (|st.hosts| == 1 && st.hosts[0].name == "sw")
    ensures AddDevice(st, "sw", map["mac" := Str(v)])
         == ConfigState([HostEntry("sw", map["mac" := Str(v)])], st.macMap[Upper(v) := "sw"])
  {
    var cfg := map["mac" := Str(v)];
    assert CfgHasMac(cfg) && cfg["mac"].s == v;
    if st.hosts != [] {
      assert st.hosts[1..] == [];
      assert StoreHost(st.hosts, "sw", cfg) == [HostEntry("sw", cfg)] + [];
    }
  }

  /** The alias table of one host with a string MAC. */
  lemma SingleHostMacMap(h: HostEntry)
    requires HasMac(h)
    ensures MacMapOf([h]) == map[UpperMac(h) := h.name]
  {
    assert [h][..0] == [];
  }

  /** A file whose one section is `[ansible:sw]` with `mac = <v>`. */
  function MacFile(v: string): ParsedFile {
    ParsedFile([Section("ansible:sw", map["mac" := [v]])], false)
  }

  /** Such a file stores that device and loading goes on with the rest. */
  lemma MacFileLoads(st: ConfigState, v: string, rest: seq<ParsedFile>)
    ensures LoadFiles(st, [MacFile(v)] + rest) == LoadFiles(AddDevice(st, "sw", map["mac" := Str(v)]), rest)
  {
    var sec := Section("ansible:sw", map["mac" := [v]]);
    var f := MacFile(v);
    assert "ansible:sw"[..|DriverTag|] == DriverTag;
    assert HostId("ansible:sw") == "sw";
    assert TaggedSections([sec]) == [sec] by {
      assert [sec][1..] == [];
    }
    PlainDevice("mac", v);
    var st' := AddDevice(st, "sw", map["mac" := Str(v)]);
    assert [sec][1..] == [];
    assert AddDevices(st, [sec]) == AddDevices(st', []) == Success(st');
    assert ([f] + rest)[0] == f && ([f] + rest)[1..] == rest;
  }

  /** A section with one ordinary option gives that option as a string. */
  lemma PlainDevice(option: string, v: string)
    requires option != "manage_vlans"
    ensures DeviceConfig(map[option := [v]]) == Success(map[option := Str(v)])
  {
    var options := map[option := [v]];
    assert AllNonEmpty(options);
    assert "manage_vlans" !in options;
    assert options[option][0] == v;
    var r := DeviceConfig(options);
    assert r.Success?;
    assert r.value.Keys == {option} && r.value[option] == Str(v);
    assert r.value == map[option := Str(v)];
  }

  // ---------------------------------------------------------------------
  // The alias table is the table of every device loaded, in order
  // ---------------------------------------------------------------------

  /**
   * One device's effect on the alias table: with a string `mac`, its
   * upper-cased MAC now names the device, every other alias keeps its
   * target and the aliases only grow by that key; without one the table is
   * untouched.
   */
  lemma AddDeviceMacMap(st: ConfigState, id: string, cfg: HostVars)
    ensures var m := AddDevice(st, id, cfg).macMap;
            && st.macMap.Keys <= m.Keys
            && (forall k :: k in st.macMap && !(CfgHasMac(cfg) && k == Upper(cfg["mac"].s)) ==> m[k] == st.macMap[k])
            && (CfgHasMac(cfg) ==> Upper(cfg["mac"].s) in m && m[Upper(cfg["mac"].s)] == id
                                   && m.Keys == st.macMap.Keys + {Upper(cfg["mac"].s)})
            && (!CfgHasMac(cfg) ==> m == st.macMap)
  {
  }

  /** The inventory entry a tagged section defines (its variables are read only for a section that loads). */
  function SectionEntry(s: Section): (e: HostEntry)
    ensures e.name == HostId(s.name)
    ensures DeviceConfig(s.options).Success? ==> e.vars == DeviceConfig(s.options).value
  {
    HostEntry(HostId(s.name), if DeviceConfig(s.options).Success? then DeviceConfig(s.options).value else map[])
  }

  function SectionEntries(sections: seq<Section>): seq<HostEntry>
    decreases |sections|
  {
    if sections == [] then [] else [SectionEntry(sections[0])] + SectionEntries(sections[1..])
  }

  /** Every device the files define, in the order `__init__` stores them (repetitions included). */
  function LoadedEntries(files: seq<ParsedFile>): seq<HostEntry>
    decreases |files|
  {
    if files == [] then [] else SectionEntries(TaggedSections(files[0].sections)) + LoadedEntries(files[1..])
  }

  /** Appending one host to the list extends its alias table by that host's MAC. */
  lemma MacMapOfSnoc(hosts: seq<HostEntry>, h: HostEntry)
    ensures MacMapOf(hosts + [h]) == if HasMac(h) then MacMapOf(hosts)[UpperMac(h) := h.name] else MacMapOf(hosts)
  {
    assert (hosts + [h])[..|hosts|] == hosts;
  }

  /** Storing one device extends the alias table of the devices seen so far by that device. */
  lemma AddDeviceExtends(st: ConfigState, prev: seq<HostEntry>, id: string, cfg: HostVars)
    requires st.macMap == MacMapOf(prev)
    ensures AddDevice(st, id, cfg).macMap == MacMapOf(prev + [HostEntry(id, cfg)])
  {
    MacMapOfSnoc(prev, HostEntry(id, cfg));
  }

  /** Loading a non-empty list of sections whose first one loads: that device, then the rest. */
  lemma AddDevicesCons(st: ConfigState, sections: seq<Section>, cfg: HostVars)
    requires sections != [] && DeviceConfig(sections[0].options) == Success(cfg)
    ensures AddDevices(st, sections) == AddDevices(AddDevice(st, HostId(sections[0].name), cfg), sections[1..])
    ensures SectionEntries(sections) == [HostEntry(HostId(sections[0].name), cfg)] + SectionEntries(sections[1..])
  {
  }

  /** Sections extend the alias table of the devices seen so far by their own devices. */
  lemma {:induction false} AddDevicesMacMap(st: ConfigState, prev: seq<HostEntry>, sections: seq<Section>)
    requires st.macMap == MacMapOf(prev) && AddDevices(st, sections).Success?
    ensures AddDevices(st, sections).value.macMap == MacMapOf(prev + SectionEntries(sections))
    decreases |sections|
  {
    if sections == [] {
      assert prev + SectionEntries(sections) == prev;
    } else {
      var cfg := DeviceConfig(sections[0].options).value;
      var e := HostEntry(HostId(sections[0].name), cfg);
      var st' := AddDevice(st, e.name, cfg);
      var seen := prev + [e];
      assert AddDevices(st, sections) == AddDevices(st', sections[1..]) by {
        AddDevicesCons(st, sections, cfg);
      }
      assert seen + SectionEntries(sections[1..]) == prev + SectionEntries(sections) by {
        AddDevicesCons(st, sections, cfg);
      }
      assert st'.macMap == MacMapOf(seen) by {
        AddDeviceExtends(st, prev, e.name, cfg);
      }
      AddDevicesMacMap(st', seen, sections[1..]);
    }
  }

  /** Loading the first file of a non-empty list, then the rest. */
  lemma LoadFilesCons(st: ConfigState, files: seq<ParsedFile>)
    requires files != [] && AddDevices(st, TaggedSections(files[0].sections)).Success?
    ensures LoadFiles(st, files) == LoadFiles(AddDevices(st, TaggedSections(files[0].sections)).value, files[1..])
    ensures LoadedEntries(files) == SectionEntries(TaggedSections(files[0].sections)) + LoadedEntries(files[1..])
  {
  }

  /** Files extend the alias table of the devices seen so far by their own devices. */
  lemma {:induction false} LoadFilesMacMap(st: ConfigState, prev: seq<HostEntry>, files: seq<ParsedFile>)
    requires st.macMap == MacMapOf(prev) && LoadFiles(st, files).Success?
    ensures LoadFiles(st, files).value.macMap == MacMapOf(prev + LoadedEntries(files))
    decreases |files|
  {
    if files == [] {
      assert prev + LoadedEntries(files) == prev;
    } else {
      var tagged := TaggedSections(files[0].sections);
      assert AddDevices(st, tagged).Success?;
      var mid := AddDevices(st, tagged).value;
      var seen := prev + SectionEntries(tagged);
      assert LoadFiles(st, files) == LoadFiles(mid, files[1..]) by {
        LoadFilesCons(st, files);
      }
      assert seen + LoadedEntries(files[1..]) == prev + LoadedEntries(files) by {
        LoadFilesCons(st, files);
      }
      assert mid.macMap == MacMapOf(seen) by {
        AddDevicesMacMap(st, prev, tagged);
      }
      LoadFilesMacMap(mid, seen, files[1..]);
    }
  }

  /**
   * The alias table `__init__` builds is the `AnsibleNetworking` table of every
   * device loaded, in order: an upper-cased MAC is aliased exactly when some
   * loaded device carried it, and it names the LAST such device.
   */
  lemma LoadedMacMap(files: seq<ParsedFile>, i: nat, k: string)
    requires LoadFiles(Empty, files).Success?
    ensures LoadFiles(Empty, files).value.macMap == MacMapOf(LoadedEntries(files))
    ensures var d := LoadedEntries(files);
            k in LoadFiles(Empty, files).value.macMap <==> exists j :: 0 <= j < |d| && HasMac(d[j]) && UpperMac(d[j]) == k
    ensures var d := LoadedEntries(files);
            (i < |d| && HasMac(d[i]) && forall j :: i < j < |d| && HasMac(d[j]) ==> UpperMac(d[j]) != UpperMac(d[i])) ==>
              UpperMac(d[i]) in LoadFiles(Empty, files).value.macMap
              && LoadFiles(Empty, files).value.macMap[UpperMac(d[i])] == d[i].name
  {
    var d := LoadedEntries(files);
    LoadFilesMacMap(Empty, [], files);
    assert [] + d == d;
    MacMapKeys(d, k);
    if i < |d| && HasMac(d[i]) && forall j :: i < j < |d| && HasMac(d[j]) ==> UpperMac(d[j]) != UpperMac(d[i]) {
      MacMapFindsLastHost(d, i);
    }
  }

  // ---------------------------------------------------------------------
  // The object
  // ---------------------------------------------------------------------

  class Config {
    var inventory: seq<HostEntry>
    var macMap: map<string, string>

    function State(): ConfigState
      reads this
    {
      ConfigState(inventory, macMap)
    }

    /** `self.inventory = {}` and `self.mac_map = {}` */
    constructor ()
      ensures State() == Empty
    {
      inventory := [];
      macMap := map[];
    }

    /**
     * The loop of `__init__` over the parsed files. When an exception
     * escapes, the state reached so far is left unspecified: the object
     * under construction is then discarded.
     */
    method Load(files: seq<ParsedFile>) returns (r: Outcome<ConfigError>)
      modifies this
      ensures LoadFiles(old(State()), files).Success? ==> r == Pass && State() == LoadFiles(old(State()), files).value
      ensures LoadFiles(old(State()), files).Failure? ==> r == Fail(LoadFiles(old(State()), files).error)
    {
      ghost var spec := LoadFiles(State(), files);
      var i := 0;
      while i < |files|
        invariant 0 <= i <= |files|
        invariant spec == LoadFiles(State(), files[i..])
      {
        // a file whose parse raised `IOError` is processed with what it parsed
        ghost var before := State();
        var res := LoadSections(TaggedSections(files[i].sections));
        LoadFilesStep(before, State(), files, i, res);
        if res.Fail? {
          return res;
        }
        i := i + 1;
      }
      r := Pass;
    }

    /** The loop over one file's tagged sections; the first failing section raises. */
    method LoadSections(hosts: seq<Section>) returns (r: Outcome<ConfigError>)
      modifies this
      ensures AddDevices(old(State()), hosts).Success? ==> r == Pass && State() == AddDevices(old(State()), hosts).value
      ensures AddDevices(old(State()), hosts).Failure? ==> r == Fail(AddDevices(old(State()), hosts).error)
    {
      ghost var spec := AddDevices(State(), hosts);
      var j := 0;
      while j < |hosts|
        invariant 0 <= j <= |hosts|
        invariant spec == AddDevices(State(), hosts[j..])
      {
        ghost var before := State();
        var res := AddSection(hosts[j]);
        AddDevicesStep(before, State(), hosts, j, res);
        if res.Fail? {
          return res;
        }
        j := j + 1;
      }
      r := Pass;
    }

    /** One tagged section: build its device configuration, store it, alias its MAC. */
    method AddSection(host: Section) returns (r: Outcome<ConfigError>)
      modifies this
      ensures DeviceConfig(host.options).Failure? ==> r == Fail(DeviceConfig(host.options).error)
      ensures DeviceConfig(host.options).Success? ==>
                r == Pass && State() == AddDevice(old(State()), HostId(host.name), DeviceConfig(host.options).value)
    {
      var devId := HostId(host.name);
      if exists k :: k in host.options && host.options[k] == [] {
        return Fail(IndexError);
      }
      var coerced := CoerceLoop(Unwrap(host.options));
      if coerced.Failure? {
        return Fail(ValueError(coerced.error));
      }
      var devCfg := coerced.value;
      inventory := StoreHost(inventory, devId, devCfg);
      if "mac" in devCfg && devCfg["mac"].Str? {
        macMap := macMap[Upper(devCfg["mac"].s) := devId];
      }
      r := Pass;
    }
  }

  /** The file loop's step at position `i`, given how loading that file's sections ended. */
  lemma LoadFilesStep(st: ConfigState, st': ConfigState, files: seq<ParsedFile>, i: nat, res: Outcome<ConfigError>)
    requires i < |files|
    requires var a := AddDevices(st, TaggedSections(files[i].sections));
             (a.Success? ==> res == Pass && st' == a.value) && (a.Failure? ==> res == Fail(a.error))
    ensures res.Fail? ==> LoadFiles(st, files[i..]) == Failure(res.error)
    ensures res.Pass? ==> LoadFiles(st, files[i..]) == LoadFiles(st', files[i + 1..])
  {
    assert files[i..][0] == files[i] && files[i..][1..] == files[i + 1..];
  }

  /** The section loop's step at position `j`, given how that section ended: a failing section ends the load. */
  lemma AddDevicesStep(st: ConfigState, st': ConfigState, hosts: seq<Section>, j: nat, res: Outcome<ConfigError>)
    requires j < |hosts|
    requires var d := DeviceConfig(hosts[j].options);
             (d.Failure? ==> res == Fail(d.error)) && (d.Success? ==> res == Pass && st' == AddDevice(st, HostId(hosts[j].name), d.value))
    ensures res.Fail? ==> AddDevices(st, hosts[j..]) == Failure(res.error)
    ensures res.Pass? ==> AddDevices(st, hosts[j..]) == AddDevices(st', hosts[j + 1..])
  {
    assert hosts[j..][0] == hosts[j] && hosts[j..][1..] == hosts[j + 1..];
  }

  /** The loop over `self.booleans`, coercing each option that is present. */
  method CoerceLoop(cfg: HostVars) returns (r: Result<HostVars, Value>)
    ensures r == CoerceBooleans(cfg, Booleans)
  {
    var devCfg := cfg;
    var b := 0;
    while b < |Booleans|
      invariant 0 <= b <= |Booleans|
      invariant CoerceBooleans(cfg, Booleans) == CoerceBooleans(devCfg, Booleans[b..])
    {
      var key := Booleans[b];
      assert Booleans[b..][0] == key && Booleans[b..][1..] == Booleans[b + 1..];
      if key in devCfg {
        var parsed := ToBoolean(devCfg[key]);
        if parsed.None? {
          return Failure(devCfg[key]);
        }
        devCfg := devCfg[key := Bool(parsed.value)];
      }
      b := b + 1;
    }
    r := Success(devCfg);
  }
}
