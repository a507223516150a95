/**
 * How the handler turns its options and the config map read from the YAML
 * file into the parameters of the transaction: truthy options override the
 * file, a port is required (or found automatically), and defaults fill the
 * rest.
 */
module Config {
  import opened Wrappers
  import opened Values

  /** The handler's parameters as the option parser delivers them; None for an option not given. */
  datatype CliArgs = CliArgs(
    port: Option<string>,
    baudrate: Option<int>,
    timeout: Option<int>,
    config: Option<string>,
    verbose: bool,
    rtsCts: bool,
    dsrDtr: bool,
    atCommand: string,
    autoFindPort: bool)

  datatype Property = Property(id: string, name: string, required: bool)

  /** The properties an option may override, in the order the handler visits them. */
  const Properties: seq<Property> := [
    Property("port", "Port", true),
    Property("rts_cts", "RTS-CTS", false),
    Property("dsr_dtr", "DSR_DTR", false),
    Property("timeout", "Timeout", false)
  ]

  /** The keys present in every resolved configuration. */
  const ResolvedKeys: set<string> := {"port", "rts_cts", "dsr_dtr", "timeout", "baudrate", "verbose"}

  const NoPortFound := "Couldn't find any available port automatically"
  const PortRequired := Missing("port")

  /** The message for a required property that is absent. */
  function Missing(id: string): string {
    "Property " + id + " not specified, its required"
  }

  /**
   * `locals().get(id, None)` in the handler, for the property ids; no
   * other name is looked up this way.
   */
  function Local(args: CliArgs, id: string): Value {
    if id == "port" then (if args.port.Some? then Str(args.port.value) else NoneValue)
    else if id == "rts_cts" then Bool(args.rtsCts)
    else if id == "dsr_dtr" then Bool(args.dsrDtr)
    else if id == "timeout" then (if args.timeout.Some? then Int(args.timeout.value) else NoneValue)
    else NoneValue
  }

  function Lookup(m: map<string, Value>, key: string): Option<Value> {
    if key in m then Some(m[key]) else None
  }

  /** A key's value after the override loop: a truthy option wins, otherwise the file's value stays. */
  function Overridden(args: CliArgs, file: map<string, Value>, key: string): Option<Value> {
    if Truthy(Local(args, key)) then Some(Local(args, key)) else Lookup(file, key)
  }

  /**
   * The port the handler connects to, or the message it exits with: with
   * automatic search, a port that is not truthy after the override is
   * replaced by the search result; otherwise the port key must be present.
   */
  function ResolvePort(args: CliArgs, file: map<string, Value>, discovered: Value): Result<Value, string> {
    var given := Overridden(args, file, "port");
    if Searches(args, given) then
      if Truthy(discovered) then Ok(discovered) else Err(NoPortFound)
    else if given.Some? then Ok(given.value)
    else Err(PortRequired)
  }

  /** The ids of the first `i` properties. */
  function Visited(i: nat): set<string>
    requires i <= |Properties|
  {
    set j | 0 <= j < i :: Properties[j].id
  }

  /** Lines 144-149: every truthy option among the properties is written into the map. */
  method ApplyOverrides(args: CliArgs, file: map<string, Value>) returns (configs: map<string, Value>)
    ensures forall key :: Lookup(configs, key) == Overridden(args, file, key)
    ensures file.Keys <= configs.Keys <= file.Keys + {"port", "rts_cts", "dsr_dtr", "timeout"}
  {
    configs := file;
    for i := 0 to |Properties|
      invariant forall key :: Lookup(configs, key) == (if key in Visited(i) && Truthy(Local(args, key)) then Some(Local(args, key)) else Lookup(file, key))
    {
      var property := Properties[i];
      assert Visited(i + 1) == Visited(i) + {property.id};
      var value := Local(args, property.id);
      if !Truthy(value) {
        continue;
      }
      configs := configs[property.id := value];
    }
    assert Visited(|Properties|) == {"port", "rts_cts", "dsr_dtr", "timeout"} by {
      assert Properties[0].id == "port" && Properties[1].id == "rts_cts";
      assert Properties[2].id == "dsr_dtr" && Properties[3].id == "timeout";
    }
    forall key | key in configs
      ensures key in file || key in Visited(|Properties|)
    {
      assert Lookup(configs, key).Some?;
    }
    forall key | key in file
      ensures key in configs
    {
      assert Lookup(file, key).Some?;
    }
  }

  /** Whether the handler searches for a port: asked to, and no truthy port given. */
  predicate Searches(args: CliArgs, port: Option<Value>) {
    args.autoFindPort && !Truthy(port.GetOr(NoneValue))
  }

  /** Lines 151-166: the automatic port search, then the check that every required property is present. */
  method SettlePort(args: CliArgs, configs: map<string, Value>, discovered: Value) returns (r: Result<map<string, Value>, string>)
    ensures r.Err? <==> if Searches(args, Lookup(configs, "port")) then !Truthy(discovered) else "port" !in configs
    ensures r.Err? ==> r.error == if Searches(args, Lookup(configs, "port")) then NoPortFound else PortRequired
    ensures r.Ok? ==> "port" in r.value && r.value == configs["port" := r.value["port"]]
    ensures r.Ok? ==> r.value.Keys == configs.Keys + {"port"}
    ensures r.Ok? ==> r.value["port"] == if Searches(args, Lookup(configs, "port")) then discovered else configs["port"]
  {
    var settled := configs;
    if args.autoFindPort && Truthy(Lookup(settled, "port").GetOr(NoneValue)) {
      // the given port is used and the search is skipped
    } else if args.autoFindPort {
      if !Truthy(discovered) {
        return Err(NoPortFound);
      }
      settled := settled["port" := discovered];
    }
    for i := 0 to |Properties|
      invariant forall j :: 0 <= j < i && Properties[j].required ==> Properties[j].id in settled
    {
      var property := Properties[i];
      if property.required && property.id !in settled {
        assert i == 0;
        return Err(Missing(property.id));
      }
    }
    assert Properties[0].required && Properties[0].id == "port";
    r := Ok(settled);
  }

  /** Lines 168-181: absent keys get their defaults; the baudrate option plays no part. */
  method FillDefaults(args: CliArgs, configs: map<string, Value>) returns (filled: map<string, Value>)
    ensures filled.Keys == configs.Keys + {"timeout", "baudrate", "rts_cts", "dsr_dtr", "verbose"}
    ensures forall key :: key in configs ==> filled[key] == configs[key]
    ensures "timeout" !in configs ==> filled["timeout"] == Int(3)
    ensures "baudrate" !in configs ==> filled["baudrate"] == Int(115200)
    ensures "rts_cts" !in configs ==> filled["rts_cts"] == Bool(args.rtsCts)
    ensures "dsr_dtr" !in configs ==> filled["dsr_dtr"] == Bool(args.dsrDtr)
    ensures "verbose" !in configs ==> filled["verbose"] == Bool(args.verbose)
  {
    filled := SetDefault(configs, "timeout", Int(3));
    filled := SetDefault(filled, "baudrate", Int(115200));
    filled := SetDefault(filled, "rts_cts", Bool(args.rtsCts));
    filled := SetDefault(filled, "dsr_dtr", Bool(args.dsrDtr));
    filled := SetDefault(filled, "verbose", Bool(args.verbose));
  }

  /** `if key not in configs: configs[key] = value`. */
  method SetDefault(configs: map<string, Value>, key: string, value: Value) returns (filled: map<string, Value>)
    ensures filled.Keys == configs.Keys + {key}
    ensures forall k :: k in configs ==> filled[k] == configs[k]
    ensures key !in configs ==> filled[key] == value
  {
    filled := configs;
    if key !in filled {
      filled := filled[key := value];
    }
  }

  /**
   * Lines 144-166: the override loop, then the port search and the
   * required-property check. The port is the one `ResolvePort` names and
   * every other key holds its value after the overrides.
   */
  method Settle(args: CliArgs, file: map<string, Value>, discovered: Value) returns (r: Result<map<string, Value>, string>)
    ensures r.Err? <==> ResolvePort(args, file, discovered).Err?
    ensures r.Err? ==> r.error == ResolvePort(args, file, discovered).error
    ensures r.Ok? ==> "port" in r.value && r.value["port"] == ResolvePort(args, file, discovered).value
    ensures r.Ok? ==> forall key :: key != "port" ==> Lookup(r.value, key) == Overridden(args, file, key)
    ensures r.Ok? ==> file.Keys + {"port"} <= r.value.Keys <= file.Keys + {"port", "rts_cts", "dsr_dtr", "timeout"}
  {
    var overridden := ApplyOverrides(args, file);
    assert Lookup(overridden, "port") == Overridden(args, file, "port");
    r := SettlePort(args, overridden, discovered);
    if r.Ok? {
      forall key | key != "port"
        ensures Lookup(r.value, key) == Overridden(args, file, key)
      {
        assert Lookup(overridden, key) == Overridden(args, file, key);
      }
    }
  }

  /**
   * Lines 122-181 of the handler. `file` is the map the YAML file holds
   * (empty when there is no file) and `discovered` what `decide_port()`
   * returns. An error is the message `Logger.error` prints before
   * `sys.exit(1)`.
   */
  method Resolve(args: CliArgs, file: map<string, Value>, discovered: Value) returns (r: Result<map<string, Value>, string>)
    ensures r.Err? <==> ResolvePort(args, file, discovered).Err?
    ensures r.Err? ==> r.error == ResolvePort(args, file, discovered).error
    ensures r.Ok? ==> r.value.Keys == file.Keys + ResolvedKeys
    ensures r.Ok? ==> r.value["port"] == ResolvePort(args, file, discovered).value
    ensures r.Ok? ==> r.value["timeout"] == Overridden(args, file, "timeout").GetOr(Int(3))
    ensures r.Ok? ==> r.value["rts_cts"] == Overridden(args, file, "rts_cts").GetOr(Bool(false))
    ensures r.Ok? ==> r.value["dsr_dtr"] == Overridden(args, file, "dsr_dtr").GetOr(Bool(false))
    ensures r.Ok? ==> r.value["baudrate"] == Lookup(file, "baudrate").GetOr(Int(115200))
    ensures r.Ok? ==> r.value["verbose"] == Lookup(file, "verbose").GetOr(Bool(args.verbose))
    ensures r.Ok? ==> forall key :: key in file && key !in ResolvedKeys ==> r.value[key] == file[key]
  {
    var settled := Settle(args, file, discovered);
    if settled.Err? {
      return Err(settled.error);
    }
    var filled := FillDefaults(args, settled.value);
    forall key | key in file && key !in ResolvedKeys
      ensures filled[key] == file[key]
    {
      assert Lookup(settled.value, key) == Overridden(args, file, key);
    }
    assert Lookup(settled.value, "baudrate") == Overridden(args, file, "baudrate");
    assert Lookup(settled.value, "verbose") == Overridden(args, file, "verbose");
    assert Lookup(settled.value, "timeout") == Overridden(args, file, "timeout");
    assert Lookup(settled.value, "rts_cts") == Overridden(args, file, "rts_cts");
    assert Lookup(settled.value, "dsr_dtr") == Overridden(args, file, "dsr_dtr");
    r := Ok(filled);
  }
}
