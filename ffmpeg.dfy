/** The encoder supervisor: one `FFMPEGInstance` per configured device owns
    at most one ffmpeg child process and remembers the last profile it
    started successfully; `FFMPEGController` forwards every request to all
    instances in the device dictionary's order.

    The operating system is the `Os` object below: it records every process
    spawned or terminated, and whether a spawned process has already exited
    when it is polled is an oracle input (`alive`). */
module Ffmpeg {
  import opened Text
  import Config

  /** An encoder profile as the core passes it around: a dict of three
      strings. Two profiles are equal iff all three strings are. */
  datatype Profile = Profile(resolution: string, bitrate: string, fps: string)

  /** The device name that selects the synthetic test pattern. */
  const TestSource := "testsrc"

  /** The words of the command line built by `build_command`. */
  function CommandWords(device: string, output: string, p: Profile): (words: seq<string>)
    ensures |words| == 14 && words[0] == "ffmpeg"
    ensures words[9..] == ["-b:v", p.bitrate, "-f", "mpegts", output]
  {
    if device == TestSource then
      ["ffmpeg", "-f", "lavfi", "-i", "testsrc=rate=" + p.fps + ":size=" + p.resolution,
       "-vcodec", "libx264", "-preset", "ultrafast", "-b:v", p.bitrate, "-f", "mpegts", output]
    else
      ["ffmpeg", "-f", "v4l2", "-framerate", p.fps, "-video_size", p.resolution,
       "-i", device, "-b:v", p.bitrate, "-f", "mpegts", output]
  }

  /** `build_command`: the string handed to `Popen(..., shell=True)`, the
      words joined by single spaces. */
  function BuildCommand(device: string, output: string, p: Profile): string
  {
    Join(CommandWords(device, output, p), ' ')
  }

  predicate NoSpaceIn(words: seq<string>)
  {
    forall i :: 0 <= i < |words| ==> ' ' !in words[i]
  }

  /** Splitting the command string at single spaces gives back exactly the
      words iff no word holds a space. This is not the shell's own word
      splitting: quotes, metacharacters, other whitespace and empty words
      are outside it. */
  lemma ShellWordsIff(device: string, output: string, p: Profile)
    ensures Split(BuildCommand(device, output, p), ' ') == CommandWords(device, output, p)
        <==> NoSpaceIn(CommandWords(device, output, p))
  {
    if NoSpaceIn(CommandWords(device, output, p)) {
      SplitJoin(CommandWords(device, output, p), ' ');
    }
  }

  /** The test-pattern source word `testsrc=rate=<fps>:size=<resolution>`
      gives back both fields when the fps holds no ':'. */
  lemma TestPatternDetermines(fps1: string, res1: string, fps2: string, res2: string)
    requires ':' !in fps1 && ':' !in fps2
    requires "testsrc=rate=" + fps1 + ":size=" + res1 == "testsrc=rate=" + fps2 + ":size=" + res2
    ensures fps1 == fps2 && res1 == res2
  {
    var w1, w2 := "testsrc=rate=" + fps1 + ":size=" + res1, "testsrc=rate=" + fps2 + ":size=" + res2;
    var t1, t2 := w1[13..], w2[13..];
    assert t1 == fps1 + [':'] + ("size=" + res1);
    assert t2 == fps2 + [':'] + ("size=" + res2);
    SplitOnceAt(fps1, ':', "size=" + res1);
    SplitOnceAt(fps2, ':', "size=" + res2);
    assert res1 == ("size=" + res1)[5..];
    assert res2 == ("size=" + res2)[5..];
  }

  /** Distinct profiles give distinct commands (for the test source, as long
      as the fps strings hold no ':', which separates them from the size). */
  lemma CommandDeterminesProfile(device: string, output: string, p: Profile, q: Profile)
    requires device == TestSource ==> ':' !in p.fps && ':' !in q.fps
    requires CommandWords(device, output, p) == CommandWords(device, output, q)
    ensures p == q
  {
    var wp, wq := CommandWords(device, output, p), CommandWords(device, output, q);
    assert wp[10] == wq[10];
    if device == TestSource {
      assert wp[4] == wq[4];
      TestPatternDetermines(p.fps, p.resolution, q.fps, q.resolution);
    } else {
      assert wp[4] == wq[4] && wp[6] == wq[6];
    }
  }

  /** A child process: its command line and whether it had already exited
      when it was polled right after the spawn. */
  datatype Process = Process(command: string, exited: bool)

  /** What the supervisors ask of the operating system. */
  datatype Action = Spawned(command: string) | Terminated(command: string)

  /** The state of one `FFMPEGInstance`: its device, its output target, the
      `process` field and the `current_profile` field. */
  datatype Supervisor = Supervisor(device: string, output: string, process: Option<Process>, current: Option<Profile>)

  /** A supervisor's new state and the actions taken to get there. */
  datatype Step = Step(next: Supervisor, actions: seq<Action>)

  function Fresh(c: Config.DeviceConfig): Supervisor
  {
    Supervisor(c.deviceName, c.output, None, None)
  }

  /** `stop`: terminate and wait for a process that is there, then forget it. */
  function StopStep(s: Supervisor): Step
  {
    match s.process
    case None => Step(s, [])
    case Some(proc) => Step(s.(process := None), [Terminated(proc.command)])
  }

  /** `start`: stop a process that is there, spawn the command for `p`;
      only a process still alive when polled makes `p` the current profile.
      A process that exited at once is kept as the `process` field. */
  function StartStep(s: Supervisor, p: Profile, alive: bool): Step
  {
    var stopped := StopStep(s);
    var command := BuildCommand(s.device, s.output, p);
    var next :=
      if alive then stopped.next.(process := Some(Process(command, false)), current := Some(p))
      else stopped.next.(process := Some(Process(command, true)));
    Step(next, stopped.actions + [Spawned(command)])
  }

  /** `restart_if_needed`: start unless `p` equals the current profile. */
  function RestartStep(s: Supervisor, p: Profile, alive: bool): Step
  {
    if Some(p) != s.current then StartStep(s, p, alive) else Step(s, [])
  }

  /** The three requests the controller forwards. */
  datatype Op = StartOp(profile: Profile) | StopOp | RestartOp(profile: Profile)

  function Apply(s: Supervisor, op: Op, alive: bool): Step
  {
    match op
    case StartOp(p) => StartStep(s, p, alive)
    case StopOp => StopStep(s)
    case RestartOp(p) => RestartStep(s, p, alive)
  }

  function SpawnCount(actions: seq<Action>): nat
  {
    if |actions| == 0 then 0
    else SpawnCount(actions[..|actions| - 1]) + (if actions[|actions| - 1].Spawned? then 1 else 0)
  }

  /** `stop` leaves no process behind and never touches the current profile;
      it terminates exactly the process that was there. */
  lemma StopKeepsProfile(s: Supervisor)
    ensures StopStep(s).next.process.None?
    ensures StopStep(s).next.current == s.current
    ensures StopStep(s).next.device == s.device && StopStep(s).next.output == s.output
    ensures StopStep(s).actions == if s.process.Some? then [Terminated(s.process.value.command)] else []
  {
  }

  /** `start` first terminates any process present, then spawns exactly once;
      the current profile becomes `p` iff the spawn is still alive. */
  lemma StartSpawnsOnce(s: Supervisor, p: Profile, alive: bool)
    ensures SpawnCount(StartStep(s, p, alive).actions) == 1
    ensures StartStep(s, p, alive).actions[|StartStep(s, p, alive).actions| - 1]
        == Spawned(BuildCommand(s.device, s.output, p))
    ensures s.process.Some? <==> StartStep(s, p, alive).actions[0].Terminated?
    ensures StartStep(s, p, alive).next.current == if alive then Some(p) else s.current
    ensures StartStep(s, p, alive).next.process.Some?
  {
    var a := StartStep(s, p, alive).actions;
    if s.process.Some? {
      assert a[..1] == [Terminated(s.process.value.command)];
      assert a[..1][..0] == [];
      assert SpawnCount(a[..1]) == 0;
    } else {
      assert a[..0] == [];
    }
  }

  /** `restart_if_needed` spawns iff `p` differs from the current profile,
      and otherwise changes nothing. */
  lemma RestartIff(s: Supervisor, p: Profile, alive: bool)
    ensures SpawnCount(RestartStep(s, p, alive).actions) == (if Some(p) != s.current then 1 else 0)
    ensures Some(p) == s.current ==> RestartStep(s, p, alive) == Step(s, [])
  {
    if Some(p) != s.current {
      StartSpawnsOnce(s, p, alive);
    }
  }

  /** Two identical requests after a successful start spawn exactly once
      between them when the profile changed, and never otherwise; the second
      request is a no-op whatever the oracle says. */
  lemma RestartIdempotent(s: Supervisor, p: Profile, alive: bool)
    ensures var first := RestartStep(s, p, true);
            && RestartStep(first.next, p, alive) == Step(first.next, [])
            && SpawnCount(first.actions) == (if Some(p) != s.current then 1 else 0)
  {
    RestartIff(s, p, true);
  }

  /** A spawn that exits at once leaves the current profile as it was, so the
      same profile is tried again on the next request: the exited process
      is terminated and the same command spawned anew. */
  lemma FailedStartIsRetried(s: Supervisor, p: Profile, alive: bool)
    requires Some(p) != s.current
    ensures var command := BuildCommand(s.device, s.output, p);
            var first := RestartStep(s, p, false);
            && first.next.current == s.current
            && first.next.process == Some(Process(command, true))
            && RestartStep(first.next, p, alive).actions == [Terminated(command), Spawned(command)]
  {
  }

  /** A running supervisor asked for a different profile stops its process,
      then starts the new command. */
  lemma ChangeRestarts(s: Supervisor, p: Profile, q: Profile, proc: Process, alive: bool)
    requires s.process == Some(proc) && s.current == Some(p) && q != p
    ensures RestartStep(s, q, alive).actions == [Terminated(proc.command), Spawned(BuildCommand(s.device, s.output, q))]
  {
  }

  /** A stopped supervisor still takes its last profile as current: asking for
      that profile again does not start a process. */
  lemma StoppedIsNotRestarted(s: Supervisor, p: Profile, alive: bool)
    requires s.current == Some(p)
    ensures RestartStep(StopStep(s).next, p, alive) == Step(StopStep(s).next, [])
    ensures RestartStep(StopStep(s).next, p, alive).next.process.None?
  {
  }

  /** All supervisors' new states and the actions in the order taken. */
  datatype FleetStep = FleetStep(next: seq<Supervisor>, actions: seq<Action>)

  /** A request forwarded to every supervisor in order; `alive` gives, per
      device, the outcome of a spawn during this request. */
  function Fleet(sups: seq<Supervisor>, op: Op, alive: string -> bool): (r: FleetStep)
    ensures |r.next| == |sups|
  {
    if |sups| == 0 then FleetStep([], [])
    else
      var init := Fleet(sups[..|sups| - 1], op, alive);
      var last := sups[|sups| - 1];
      var step := Apply(last, op, alive(last.device));
      FleetStep(init.next + [step.next], init.actions + step.actions)
  }

  /** Each supervisor ends up exactly as if it had been asked alone. */
  lemma {:induction false} FleetAt(sups: seq<Supervisor>, op: Op, alive: string -> bool, i: nat)
    requires i < |sups|
    ensures Fleet(sups, op, alive).next[i] == Apply(sups[i], op, alive(sups[i].device)).next
  {
    if i < |sups| - 1 {
      FleetAt(sups[..|sups| - 1], op, alive, i);
    }
  }

  /** The fleet result is determined by what happens to each supervisor. */
  lemma FleetPointwise(sups: seq<Supervisor>, after: seq<Supervisor>, op: Op, alive: string -> bool)
    requires |after| == |sups|
    requires forall j :: 0 <= j < |sups| ==> after[j] == Apply(sups[j], op, alive(sups[j].device)).next
    ensures after == Fleet(sups, op, alive).next
  {
    forall j | 0 <= j < |sups|
      ensures after[j] == Fleet(sups, op, alive).next[j]
    {
      FleetAt(sups, op, alive, j);
    }
  }

  /** One more supervisor handled: its actions follow those of the ones before. */
  lemma LogStep(log0: seq<Action>, log1: seq<Action>, log2: seq<Action>, before: seq<Supervisor>, op: Op, alive: string -> bool, i: nat)
    requires i < |before|
    requires log1 == log0 + Fleet(before[..i], op, alive).actions
    requires log2 == log1 + Apply(before[i], op, alive(before[i].device)).actions
    ensures log2 == log0 + Fleet(before[..i + 1], op, alive).actions
  {
    FleetExtend(before, op, alive, i);
    ConcatAssoc(log0, Fleet(before[..i], op, alive).actions, Apply(before[i], op, alive(before[i].device)).actions);
  }

  /** Associativity of `+`, stated apart so that it is proved once outside
      any context of fleet facts. */
  lemma ConcatAssoc<T>(a: seq<T>, b: seq<T>, c: seq<T>)
    ensures (a + b) + c == a + (b + c)
  {
  }

  lemma FleetWhole(before: seq<Supervisor>, op: Op, alive: string -> bool)
    ensures Fleet(before[..|before|], op, alive) == Fleet(before, op, alive)
  {
    assert before[..|before|] == before;
  }

  lemma FleetExtend(before: seq<Supervisor>, op: Op, alive: string -> bool, i: nat)
    requires i < |before|
    ensures Fleet(before[..i + 1], op, alive).actions
         == Fleet(before[..i], op, alive).actions + Apply(before[i], op, alive(before[i].device)).actions
  {
    assert before[..i + 1][..i] == before[..i];
  }

  /** A round in which no supervisor acts asks nothing of the operating system. */
  lemma {:induction false} FleetQuiet(sups: seq<Supervisor>, op: Op, alive: string -> bool)
    requires forall j :: 0 <= j < |sups| ==> Apply(sups[j], op, alive(sups[j].device)).actions == []
    ensures Fleet(sups, op, alive).actions == []
  {
    if |sups| > 0 {
      var init := sups[..|sups| - 1];
      forall j | 0 <= j < |init| ensures Apply(init[j], op, alive(init[j].device)).actions == [] {
        assert init[j] == sups[j];
      }
      FleetQuiet(init, op, alive);
    }
  }

  /** A round in which every supervisor is left as it is changes nothing and
      asks nothing of the operating system. */
  lemma FleetFixpoint(sups: seq<Supervisor>, op: Op, alive: string -> bool)
    requires forall j :: 0 <= j < |sups| ==> Apply(sups[j], op, alive(sups[j].device)) == Step(sups[j], [])
    ensures Fleet(sups, op, alive) == FleetStep(sups, [])
  {
    FleetPointwise(sups, sups, op, alive);
    FleetQuiet(sups, op, alive);
  }

  /** After a restart round in which every spawn stayed alive, repeating the
      round changes nothing and spawns nothing. */
  lemma FleetRestartIdempotent(sups: seq<Supervisor>, p: Profile, alive: string -> bool)
    ensures var first := Fleet(sups, RestartOp(p), _ => true);
            Fleet(first.next, RestartOp(p), alive) == FleetStep(first.next, [])
  {
    var first := Fleet(sups, RestartOp(p), _ => true);
    forall j | 0 <= j < |first.next|
      ensures Apply(first.next[j], RestartOp(p), alive(first.next[j].device)) == Step(first.next[j], [])
    {
      FleetAt(sups, RestartOp(p), _ => true, j);
      RestartIdempotent(sups[j], p, alive(first.next[j].device));
    }
    FleetFixpoint(first.next, RestartOp(p), alive);
  }

  /** The process table of the operating system. */
  class Os {
    var log: seq<Action>

    constructor ()
      ensures log == []
    {
      log := [];
    }

    /** `subprocess.Popen(command, shell=True)` followed by `poll()`. */
    method Spawn(command: string, alive: bool) returns (proc: Process)
      modifies this
      ensures proc == Process(command, !alive)
      ensures log == old(log) + [Spawned(command)]
    {
      log := log + [Spawned(command)];
      proc := Process(command, !alive);
    }

    /** `terminate()` followed by `wait()`. */
    method Terminate(proc: Process)
      modifies this
      ensures log == old(log) + [Terminated(proc.command)]
    {
      log := log + [Terminated(proc.command)];
    }
  }

  /** `FFMPEGInstance`. */
  class Instance {
    const deviceName: string
    const output: string
    const os: Os
    var process: Option<Process>
    var currentProfile: Option<Profile>

    function Model(): Supervisor
      reads this
    {
      Supervisor(deviceName, output, process, currentProfile)
    }

    constructor (config: Config.DeviceConfig, os: Os)
      ensures Model() == Fresh(config) && this.os == os
    {
      deviceName := config.deviceName;
      output := config.output;
      this.os := os;
      process := None;
      currentProfile := None;
    }

    method Stop()
      modifies this, os
      ensures Model() == StopStep(old(Model())).next
      ensures os.log == old(os.log) + StopStep(old(Model())).actions
    {
      if process.Some? {
        os.Terminate(process.value);
        process := None;
      }
    }

    method Start(p: Profile, alive: bool)
      modifies this, os
      ensures Model() == StartStep(old(Model()), p, alive).next
      ensures os.log == old(os.log) + StartStep(old(Model()), p, alive).actions
    {
      if process.Some? {
        Stop();
      }
      var command := BuildCommand(deviceName, output, p);
      var proc := os.Spawn(command, alive);
      process := Some(proc);
      if proc.exited {
        return;
      }
      currentProfile := Some(p);
    }

    method RestartIfNeeded(p: Profile, alive: bool)
      modifies this, os
      ensures Model() == RestartStep(old(Model()), p, alive).next
      ensures os.log == old(os.log) + RestartStep(old(Model()), p, alive).actions
    {
      if Some(p) != currentProfile {
        Start(p, alive);
      }
    }

    /** Runs the method that `op` names. */
    method Handle(op: Op, alive: bool)
      modifies this, os
      ensures Model() == Apply(old(Model()), op, alive).next
      ensures os.log == old(os.log) + Apply(old(Model()), op, alive).actions
    {
      match op
      case StartOp(p) => Start(p, alive);
      case StopOp => Stop();
      case RestartOp(p) => RestartIfNeeded(p, alive);
    }
  }

  /** `FFMPEGController`: one instance per configured device, in the
      dictionary's order; no devices means no instances. */
  class Controller {
    const os: Os
    const instances: seq<Instance>
    /** The position of each instance, which makes the instances distinct. */
    ghost const position: map<Instance, nat>
    ghost const Repr: set<Instance>

    ghost predicate Valid()
    {
      forall i :: 0 <= i < |instances| ==>
        instances[i].os == os && instances[i] in Repr && instances[i] in position && position[instances[i]] == i
    }

    ghost function Models(): (r: seq<Supervisor>)
      reads this, Repr
      requires Valid()
      ensures |r| == |instances|
    {
      seq(|instances|, i requires 0 <= i < |instances| reads Repr => instances[i].Model())
    }

    constructor (config: Config.Config, os: Os)
      requires Config.WellFormed(config.deviceConfigs)
      ensures Valid() && this.os == os
      ensures |instances| == |config.deviceConfigs.order|
      ensures forall i :: 0 <= i < |instances| ==>
        fresh(instances[i]) &&
        instances[i].Model() == Fresh(config.deviceConfigs.configs[config.deviceConfigs.order[i]])
    {
      var xs, index := NewInstances(config.deviceConfigs, os);
      this.os := os;
      instances := xs;
      position := index;
      Repr := index.Keys;
    }

    /** One new instance per device, in the dictionary's order. */
    static method NewInstances(table: Config.DeviceTable, os: Os) returns (xs: seq<Instance>, ghost index: map<Instance, nat>)
      requires Config.WellFormed(table)
      ensures |xs| == |table.order|
      ensures forall j :: 0 <= j < |xs| ==>
        && fresh(xs[j]) && xs[j].os == os && xs[j].Model() == Fresh(table.configs[table.order[j]])
        && xs[j] in index && index[xs[j]] == j
    {
      xs, index := [], map[];
      for i := 0 to |table.order|
        invariant |xs| == i
        invariant forall j :: 0 <= j < i ==>
          && fresh(xs[j]) && xs[j].os == os && xs[j].Model() == Fresh(table.configs[table.order[j]])
          && xs[j] in index && index[xs[j]] == j
      {
        var instance := new Instance(table.configs[table.order[i]], os);
        xs, index := xs + [instance], index[instance := i];
      }
    }

    /** The instances before position `i` have handled `op`, starting from
        the states in `before`; the others are still in those states. */
    ghost predicate HandledUpTo(i: nat, op: Op, alive: string -> bool, before: seq<Supervisor>)
      reads Repr
      requires Valid() && i <= |instances| && |before| == |instances|
    {
      && (forall j :: 0 <= j < i ==> instances[j].Model() == Apply(before[j], op, alive(before[j].device)).next)
      && (forall j :: i <= j < |instances| ==> instances[j].Model() == before[j])
    }

    /** Forwards `op` to the instance at position `i`. */
    method HandleAt(i: nat, op: Op, alive: string -> bool, ghost before: seq<Supervisor>, ghost log0: seq<Action>)
      requires Valid() && i < |instances| && |before| == |instances|
      requires HandledUpTo(i, op, alive, before)
      requires os.log == log0 + Fleet(before[..i], op, alive).actions
      modifies instances[i], os
      ensures HandledUpTo(i + 1, op, alive, before)
      ensures os.log == log0 + Fleet(before[..i + 1], op, alive).actions
    {
      assert instances[i].Model() == before[i];
      ghost var log := os.log;
      instances[i].Handle(op, alive(instances[i].deviceName));
      assert HandledUpTo(i + 1, op, alive, before) by {
        forall j | 0 <= j < |instances| && j != i
          ensures instances[j].Model() == old(instances[j].Model())
        {
          assert position[instances[j]] != position[instances[i]];
        }
      }
      assert os.log == log0 + Fleet(before[..i + 1], op, alive).actions by {
        LogStep(log0, log, os.log, before, op, alive, i);
      }
    }

    /** The loop of the three fan-out methods: forwards `op` to every
        instance, one after the other; `before` is the fleet's initial state. */
    method ForEachInstance(op: Op, alive: string -> bool, ghost before: seq<Supervisor>)
      requires Valid() && before == Models()
      modifies Repr, os
      ensures forall j :: 0 <= j < |instances| ==> instances[j].Model() == Apply(before[j], op, alive(before[j].device)).next
      ensures os.log == old(os.log) + Fleet(before, op, alive).actions
    {
      for i := 0 to |instances|
        invariant HandledUpTo(i, op, alive, before)
        invariant os.log == old(os.log) + Fleet(before[..i], op, alive).actions
      {
        HandleAt(i, op, alive, before, old(os.log));
      }
      FleetWhole(before, op, alive);
    }

    method FanOut(op: Op, alive: string -> bool)
      requires Valid()
      modifies Repr, os
      ensures Models() == Fleet(old(Models()), op, alive).next
      ensures os.log == old(os.log) + Fleet(old(Models()), op, alive).actions
    {
      ghost var before := Models();
      ForEachInstance(op, alive, before);
      FleetPointwise(before, Models(), op, alive);
    }

    method Start(p: Profile, alive: string -> bool)
      requires Valid()
      modifies Repr, os
      ensures Models() == Fleet(old(Models()), StartOp(p), alive).next
      ensures os.log == old(os.log) + Fleet(old(Models()), StartOp(p), alive).actions
    {
      FanOut(StartOp(p), alive);
    }

    method Stop()
      requires Valid()
      modifies Repr, os
      ensures Models() == Fleet(old(Models()), StopOp, _ => false).next
      ensures os.log == old(os.log) + Fleet(old(Models()), StopOp, _ => false).actions
    {
      FanOut(StopOp, _ => false);
    }

    method RestartIfNeeded(p: Profile, alive: string -> bool)
      requires Valid()
      modifies Repr, os
      ensures Models() == Fleet(old(Models()), RestartOp(p), alive).next
      ensures os.log == old(os.log) + Fleet(old(Models()), RestartOp(p), alive).actions
    {
      FanOut(RestartOp(p), alive);
    }
  }
}
