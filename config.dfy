/** The device list of the configuration: `input_devices` is a
    comma-separated list of `device:output` entries that is turned into a
    dictionary of device configurations keyed by device name. Reading the
    file itself is not modelled; the already-read option values are the
    inputs. */
module Config {
  import opened Text

  /** Per-device settings: the global profile strings are copied into every
      device unchanged. */
  datatype DeviceConfig = DeviceConfig(
    deviceName: string,
    output: string,
    resolution: string,
    bitrate: string,
    fps: string)

  /** A Python `dict` from device name to its configuration: `order` is the
      dict's iteration order and `configs` its entries. */
  datatype DeviceTable = DeviceTable(order: seq<string>, configs: map<string, DeviceConfig>)

  /** The iteration order lists every key exactly once. */
  ghost predicate WellFormed(t: DeviceTable)
  {
    && (forall i, j :: 0 <= i < j < |t.order| ==> t.order[i] != t.order[j])
    && (forall k :: k in t.configs <==> k in t.order)
  }

  const Empty := DeviceTable([], map[])

  /** `d[name] = c`: a new key goes to the end of the iteration order,
      an existing key keeps its position and gets the new value. */
  function Assign(t: DeviceTable, name: string, c: DeviceConfig): (r: DeviceTable)
    ensures WellFormed(t) ==> WellFormed(r)
    ensures r.configs == t.configs[name := c]
    ensures name in t.configs ==> r.order == t.order
    ensures name !in t.configs ==> r.order == t.order + [name]
  {
    DeviceTable(if name in t.configs then t.order else t.order + [name], t.configs[name := c])
  }

  /** The device name of an entry, or `None` when it has no ':' and is skipped. */
  function EntryName(entry: string): Option<string>
  {
    match SplitOnce(entry, ':')
    case None => None
    case Some((device, _)) => Some(device)
  }

  /** One iteration of the parsing loop. */
  function Insert(t: DeviceTable, entry: string, resolution: string, bitrate: string, fps: string): DeviceTable
  {
    match SplitOnce(entry, ':')
    case None => t
    case Some((device, output)) => Assign(t, device, DeviceConfig(device, output, resolution, bitrate, fps))
  }

  /** The dictionary after inserting `entries` in order. */
  function TableOf(entries: seq<string>, resolution: string, bitrate: string, fps: string): (t: DeviceTable)
    ensures WellFormed(t)
    ensures forall k :: k in t.configs ==>
      && t.configs[k].deviceName == k
      && ':' !in k
      && t.configs[k].resolution == resolution
      && t.configs[k].bitrate == bitrate
      && t.configs[k].fps == fps
  {
    if |entries| == 0 then Empty
    else Insert(TableOf(entries[..|entries| - 1], resolution, bitrate, fps), entries[|entries| - 1], resolution, bitrate, fps)
  }

  /** `device_configs` for the option value `inputDevices`. */
  function DeviceConfigsOf(inputDevices: string, resolution: string, bitrate: string, fps: string): DeviceTable
  {
    TableOf(Split(inputDevices, ','), resolution, bitrate, fps)
  }

  /** The body of the loop that fills `device_configs`: an entry with a ':'
      is cut at its first ':' into device and output. */
  method AddEntry(table: DeviceTable, entry: string, resolution: string, bitrate: string, fps: string)
    returns (next: DeviceTable)
    ensures next == Insert(table, entry, resolution, bitrate, fps)
  {
    next := table;
    if ':' in entry {
      var device, output := SplitOnce(entry, ':').value.0, SplitOnce(entry, ':').value.1;
      next := Assign(table, device, DeviceConfig(device, output, resolution, bitrate, fps));
    }
  }

  /** The loop that fills `device_configs`. */
  method ParseDeviceConfigs(inputDevices: string, resolution: string, bitrate: string, fps: string)
    returns (table: DeviceTable)
    ensures table == DeviceConfigsOf(inputDevices, resolution, bitrate, fps)
  {
    var entries := Split(inputDevices, ',');
    table := Empty;
    for i := 0 to |entries|
      invariant table == TableOf(entries[..i], resolution, bitrate, fps)
    {
      TableOfSnoc(entries, i, resolution, bitrate, fps);
      table := AddEntry(table, entries[i], resolution, bitrate, fps);
    }
    assert entries[..|entries|] == entries;
  }

  lemma TableOfSnoc(entries: seq<string>, i: nat, resolution: string, bitrate: string, fps: string)
    requires i < |entries|
    ensures TableOf(entries[..i + 1], resolution, bitrate, fps)
         == Insert(TableOf(entries[..i], resolution, bitrate, fps), entries[i], resolution, bitrate, fps)
  {
    assert entries[..i + 1][..i] == entries[..i];
  }

  lemma InsertKeys(t: DeviceTable, entry: string, resolution: string, bitrate: string, fps: string, name: string)
    ensures name in Insert(t, entry, resolution, bitrate, fps).configs <==> name in t.configs || EntryName(entry) == Some(name)
  {
  }

  predicate Mentions(entries: seq<string>, name: string)
  {
    exists i :: 0 <= i < |entries| && EntryName(entries[i]) == Some(name)
  }

  lemma MentionsSnoc(entries: seq<string>, name: string)
    requires |entries| > 0
    ensures Mentions(entries, name)
        <==> Mentions(entries[..|entries| - 1], name) || EntryName(entries[|entries| - 1]) == Some(name)
  {
    var init := entries[..|entries| - 1];
    if Mentions(init, name) {
      var i :| 0 <= i < |init| && EntryName(init[i]) == Some(name);
      assert EntryName(entries[i]) == Some(name);
    }
    if Mentions(entries, name) {
      var i :| 0 <= i < |entries| && EntryName(entries[i]) == Some(name);
      if i < |init| {
        assert EntryName(init[i]) == Some(name);
      }
    }
  }

  /** A device is configured iff some entry names it before its first ':'. */
  lemma {:induction false} ConfiguredIff(entries: seq<string>, resolution: string, bitrate: string, fps: string, name: string)
    ensures name in TableOf(entries, resolution, bitrate, fps).configs <==> Mentions(entries, name)
  {
    if |entries| > 0 {
      var init := entries[..|entries| - 1];
      ConfiguredIff(init, resolution, bitrate, fps, name);
      InsertKeys(TableOf(init, resolution, bitrate, fps), entries[|entries| - 1], resolution, bitrate, fps, name);
      MentionsSnoc(entries, name);
    }
  }

  /** A name given several times keeps the LAST entry's output. */
  lemma {:induction false} LastEntryWins(entries: seq<string>, resolution: string, bitrate: string, fps: string,
                                         i: nat, device: string, output: string)
    requires i < |entries|
    requires SplitOnce(entries[i], ':') == Some((device, output))
    requires forall j :: i < j < |entries| ==> EntryName(entries[j]) != Some(device)
    ensures device in TableOf(entries, resolution, bitrate, fps).configs
    ensures TableOf(entries, resolution, bitrate, fps).configs[device] == DeviceConfig(device, output, resolution, bitrate, fps)
  {
    var init := entries[..|entries| - 1];
    if i < |entries| - 1 {
      forall j | i < j < |init| ensures EntryName(init[j]) != Some(device) {
        assert init[j] == entries[j];
      }
      assert init[i] == entries[i];
      LastEntryWins(init, resolution, bitrate, fps, i, device, output);
      assert EntryName(entries[|entries| - 1]) != Some(device);
    }
  }

  /** Names of the entries that have a ':', in input order. */
  function Names(entries: seq<string>): seq<string>
  {
    if |entries| == 0 then []
    else
      var init := Names(entries[..|entries| - 1]);
      match EntryName(entries[|entries| - 1])
      case None => init
      case Some(n) => init + [n]
  }

  /** Each element at its first occurrence, in order. */
  function FirstOccurrences(s: seq<string>): seq<string>
  {
    if |s| == 0 then []
    else if s[|s| - 1] in s[..|s| - 1] then FirstOccurrences(s[..|s| - 1])
    else FirstOccurrences(s[..|s| - 1]) + [s[|s| - 1]]
  }

  lemma {:induction false} FirstOccurrencesElements(s: seq<string>, x: string)
    ensures x in FirstOccurrences(s) <==> x in s
  {
    if |s| > 0 {
      FirstOccurrencesElements(s[..|s| - 1], x);
      assert s == s[..|s| - 1] + [s[|s| - 1]];
    }
  }

  /** The dictionary iterates over the devices in the order in which each
      name FIRST appears; a repeated name does not move. */
  lemma {:induction false} OrderIsFirstAppearance(entries: seq<string>, resolution: string, bitrate: string, fps: string)
    ensures TableOf(entries, resolution, bitrate, fps).order == FirstOccurrences(Names(entries))
  {
    if |entries| > 0 {
      var init := entries[..|entries| - 1];
      var last := entries[|entries| - 1];
      OrderIsFirstAppearance(init, resolution, bitrate, fps);
      var t := TableOf(init, resolution, bitrate, fps);
      match EntryName(last)
      case None =>
      case Some(n) =>
        var names := Names(entries);
        assert names == Names(init) + [n];
        assert names[..|names| - 1] == Names(init);
        FirstOccurrencesElements(Names(init), n);
        NamesAreConfigured(init, resolution, bitrate, fps, n);
    }
  }

  lemma {:induction false} NamesAreConfigured(entries: seq<string>, resolution: string, bitrate: string, fps: string, n: string)
    ensures n in Names(entries) <==> n in TableOf(entries, resolution, bitrate, fps).configs
  {
    if |entries| > 0 {
      NamesAreConfigured(entries[..|entries| - 1], resolution, bitrate, fps, n);
    }
  }

  /** The parsed configuration. Only the options the core reads are kept. */
  class Config {
    const resolution: string
    const bitrate: string
    const fps: string
    const degradationSteps: int
    const deviceConfigs: DeviceTable

    /** The device dictionary lists each device once, under its own name,
        with the global profile strings. */
    ghost predicate Valid()
    {
      && WellFormed(deviceConfigs)
      && forall k :: k in deviceConfigs.configs ==>
           deviceConfigs.configs[k] == DeviceConfig(k, deviceConfigs.configs[k].output, resolution, bitrate, fps)
    }

    constructor (resolution: string, bitrate: string, fps: string, degradationSteps: int, inputDevices: string)
      ensures Valid()
      ensures this.resolution == resolution && this.bitrate == bitrate && this.fps == fps
      ensures this.degradationSteps == degradationSteps
      ensures deviceConfigs == DeviceConfigsOf(inputDevices, resolution, bitrate, fps)
    {
      this.resolution := resolution;
      this.bitrate := bitrate;
      this.fps := fps;
      this.degradationSteps := degradationSteps;
      var table := ParseDeviceConfigs(inputDevices, resolution, bitrate, fps);
      this.deviceConfigs := table;
    }

    /** `get_device_configs`: the dictionary built at construction. */
    function GetDeviceConfigs(): (r: DeviceTable)
      requires Valid()
      ensures WellFormed(r)
      ensures forall k :: k in r.configs ==> r.configs[k] == DeviceConfig(k, r.configs[k].output, resolution, bitrate, fps)
    {
      deviceConfigs
    }
  }

  datatype ConfigError = StepsNotAnInteger

  /** Builds the configuration from the option values; `int()` of the
      `degradation_steps` value raising `ValueError` aborts it. */
  method LoadConfig(resolution: string, bitrate: string, fps: string, degradationSteps: string, inputDevices: string)
    returns (r: Result<Config, ConfigError>)
    ensures r.Failure? <==> ParseInt(degradationSteps).None?
    ensures r.Failure? ==> r.error == StepsNotAnInteger
    ensures r.Success? ==>
      && fresh(r.value) && r.value.Valid()
      && r.value.degradationSteps == ParseInt(degradationSteps).value
      && r.value.resolution == resolution && r.value.bitrate == bitrate && r.value.fps == fps
      && r.value.deviceConfigs == DeviceConfigsOf(inputDevices, resolution, bitrate, fps)
  {
    var steps := ParseInt(degradationSteps);
    if steps.None? {
      return Failure(StepsNotAnInteger);
    }
    var c := new Config(resolution, bitrate, fps, steps.value, inputDevices);
    return Success(c);
  }
}
