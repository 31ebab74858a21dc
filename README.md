# keenetic-info: adaptive encoder profiles

A Dafny model of the core of keenetic-info. This tool polls a Keenetic
router for the Wi-Fi signal and noise levels. It adapts the resolution,
bitrate and frame rate of a set of ffmpeg encoder processes to the measured
signal-to-noise ratio. The model covers five parts:

- **Configuration** (`config.dfy`, module `Config`). The `input_devices`
  option is a comma-separated list of `device:output` entries. It is turned
  into a Python dictionary of `DeviceConfig` records, and the dictionary's
  insertion order is modelled explicitly (`DeviceTable`). `degradation_steps`
  is read with `int()`, which may fail.
- **Encoder supervision** (`ffmpeg.dfy`, module `Ffmpeg`):
  - the command line that `build_command` produces;
  - the `FFMPEGInstance` class, which holds a process and a current profile
    and has `start`, `stop` and `restart_if_needed`;
  - the `FFMPEGController` class, which forwards each request to every
    instance in the dictionary's order.

  The classes are Dafny classes with `modifies` frames. The operating system
  is an `Os` object that logs every spawn and termination. Each method is
  proved equal to a function on values (`StartStep`, `StopStep`,
  `RestartStep`, `Fleet`), and the lifecycle properties are lemmas about
  those functions.
- **Signal policy** (`signalpolicy.dfy`, module `SignalPolicy`): the profile
  ladder that `SignalPolicyEngine.__init__` builds, and the choice of a ladder
  step in `evaluate_and_apply`. Building the ladder is an imperative loop
  (`BuildProfiles`) proved equal to the function `LadderProfiles`. The ladder
  arithmetic works on numbers (`Rung`), and `Render` formats a rung as a
  profile of strings.
- **Link quality** (`quality.dfy`, module `Quality`): `rssi_to_quality`.
- **Python string built-ins** (`text.dfy`, module `Text`): `str.split`,
  `str.split(sep, 1)`, `int()` on decimal strings and `str()` of an `int`,
  with their round trips.

Python semantics that the model writes out:

- **Floor division.** `//` with a positive divisor is floor division, which
  Dafny's `/` matches.
- **Bitrate truncation.** `int()` of the float bitrate factor truncates
  toward zero, which `TruncDiv` writes out for negative products.
- **Process truthiness.** `if self.process` is true exactly when a process
  object is stored, because a `Popen` object is always truthy.
- **Profile equality.** Profiles are dictionaries of three strings, and two
  profiles are equal when all three strings are.

Behaviour of the code worth knowing, which the model keeps:

- **A stopped instance is not restarted.** `restart_if_needed`
  (src/ffmpeg.py:57) compares only `current_profile`, which `stop`
  (src/ffmpeg.py:49-54) leaves in place. A stopped instance asked for its
  last profile therefore starts nothing (`Ffmpeg.StoppedIsNotRestarted`).
- **A failed spawn is tried again.** When the spawned process has already
  exited at the poll (src/ffmpeg.py:43-45), `start` returns with the exited
  handle still stored and `current_profile` unchanged. The next request for
  the same profile terminates that handle and spawns the same command again
  (`Ffmpeg.FailedStartIsRetried`).
- **No devices means no instances.** The controller creates one instance per
  configured device and nothing else (src/ffmpeg.py:66-67). A `testsrc`
  instance exists only when a device of that name is configured.
- **The fallbacks are only fallbacks.**
  - The width and height become 320 and 240 only when they drop to 1 or
    less (src/signalpolicy.py:33-36), so a step can be narrower than 320
    pixels (`WidthLadderExample`).
  - The fallback can make the last step larger than the one before
    (`DimRisesAtLastStep`).
  - The frame rate becomes 12 when it would fall below 10
    (src/signalpolicy.py:42-43), which can be more than the step before
    (`FpsSteps`).

  So only the bitrate never rises along the ladder (`KbpsNonIncreasing`).

I/O is modelled in three ways:

- Reading the configuration file is not modelled; the option strings are
  inputs.
- The router reading reaches `EvaluateAndApply` as a `Reading` whose
  `rssi` and `noise` values are each an `int` or missing.
- Whether a freshly spawned ffmpeg process is still alive when it is polled
  is an oracle: `alive` for one instance, and a function from device name to
  `bool` for one round over the whole controller.

## Model

| member | source | states |
|---|---|---|
| Text.Split | src/config.py:36 | `str.split`: at least one piece, and no piece contains the separator |
| Text.JoinSplit | src/config.py:36 | joining the pieces of a split with the separator gives back the string |
| Text.SplitJoin | src/signalpolicy.py:30 | splitting the join of separator-free pieces gives back exactly those pieces |
| Text.SplitOnce | src/config.py:39-40 | `split(sep, 1)` after `sep in s`: no result iff the separator is absent; otherwise the head has no separator and head + separator + tail is the entry |
| Text.SplitOnceAt | src/config.py:40 | the two-piece split cuts at the first separator; later separators stay in the tail |
| Text.IntToString | src/signalpolicy.py:37-41 | `str(i)` of an `int`: non-empty, a leading '-' iff `i` is negative, digits after the first character; `ParseInt` reads it back (`IntRoundTrip`) |
| Text.ParseInt | src/config.py:33 | `int()` of a string: an optional sign and decimal digits, no result standing for `ValueError`; it inverts `IntToString` (`IntRoundTrip`) |
| Text.IntRoundTrip | src/signalpolicy.py:39-42 | `int(str(i)) == i` for every integer, which the re-reads of the formatted bitrate and fps rely on |
| Text.IntToStringAvoids | src/signalpolicy.py:37-38 | a formatted integer never contains 'x', 'k' or ':', so the formatted fields split back cleanly |
| Config.Assign | src/config.py:41-47 | `d[name] = c`: the entry is set; a new key goes last in the iteration order and an existing one keeps its place; the order stays duplicate-free |
| Config.TableOf | src/config.py:35-47 | the dictionary lists every key once; each entry is keyed by its own device name, has no ':' in its name, and carries the global resolution, bitrate and fps |
| Config.Insert | src/config.py:39-47 | one pass of the loop: an entry without ':' leaves the dict as it is; otherwise the head before the first ':' becomes a key (`InsertKeys`), and `AddEntry` computes it |
| Config.AddEntry | src/config.py:39-47 | the loop body: an entry with a ':' is cut at its first ':' and inserted; any other entry is skipped |
| Config.ParseDeviceConfigs | src/config.py:35-47 | the loop over the comma-separated entries builds exactly `DeviceConfigsOf` of the option |
| Config.ConfiguredIff | src/config.py:38-41 | a device is configured iff some entry names it before its first ':' |
| Config.LastEntryWins | src/config.py:41-47 | a device named several times keeps the output of its last entry |
| Config.OrderIsFirstAppearance | src/config.py:41 | the dictionary iterates over devices in the order of their first appearance |
| Config.Config.constructor | src/config.py:30-47 | the profile strings are kept as read and the device dictionary is the parsed `input_devices` |
| Config.Config.GetDeviceConfigs | src/config.py:52-53 | the returned dictionary lists each device once, keyed by its name, with the global profile strings |
| Config.LoadConfig | src/config.py:33 | construction fails iff `degradation_steps` is not an integer; otherwise the configuration holds its value |
| Ffmpeg.BuildCommand | src/ffmpeg.py:26-36 | the string handed to `Popen`: the command words joined by single spaces; splitting it at spaces gives back the words iff no word holds a space (`ShellWordsIff`) |
| Ffmpeg.CommandWords | src/ffmpeg.py:26-36 | the command has 14 words, starts with `ffmpeg` and ends with the bitrate, `-f mpegts` and the output |
| Ffmpeg.ShellWordsIff | src/ffmpeg.py:26-36 | splitting the command string at single spaces gives back the words iff no word contains a space |
| Ffmpeg.TestPatternDetermines | src/ffmpeg.py:29 | the `testsrc=rate=...:size=...` word determines fps and resolution when the fps contains no ':' |
| Ffmpeg.CommandDeterminesProfile | src/ffmpeg.py:26-36 | distinct profiles give distinct commands (for `testsrc`, when the fps strings contain no ':') |
| Ffmpeg.StopStep | src/ffmpeg.py:49-54 | `stop` on the instance's state: terminate a present process and forget it; its properties are `StopKeepsProfile`, and `Instance.Stop` is proved equal to it |
| Ffmpeg.StartStep | src/ffmpeg.py:38-47 | `start` on the instance's state: stop, spawn the command, keep the handle, and take the profile only when the spawn is alive; its properties are `StartSpawnsOnce` and `FailedStartIsRetried` |
| Ffmpeg.RestartStep | src/ffmpeg.py:56-59 | `restart_if_needed` on the instance's state: start iff the profile differs from the current one; its properties are `RestartIff`, `RestartIdempotent`, `ChangeRestarts` and `StoppedIsNotRestarted` |
| Ffmpeg.Fleet | src/ffmpeg.py:82-85 | one request forwarded to every instance in order: as many states as instances, each one as if asked alone (`FleetAt`), and the actions of the instances in order |
| Ffmpeg.StopKeepsProfile | src/ffmpeg.py:49-54 | `stop` leaves no process, keeps the current profile, and terminates exactly the process that was there |
| Ffmpeg.StartSpawnsOnce | src/ffmpeg.py:38-47 | `start` terminates a present process first, then spawns the profile's command exactly once; the profile becomes current iff the spawn is alive at the poll |
| Ffmpeg.RestartIff | src/ffmpeg.py:56-59 | `restart_if_needed` spawns once iff the profile differs from the current one, and otherwise changes nothing |
| Ffmpeg.RestartIdempotent | src/ffmpeg.py:56-59 | after a successful restart, the same request again is a no-op; the pair spawns once iff the profile changed |
| Ffmpeg.ChangeRestarts | src/ffmpeg.py:56-59 | a running instance asked for a different profile terminates its process, then spawns the new command |
| Ffmpeg.FailedStartIsRetried | src/ffmpeg.py:38-47 | a spawn that exits at once leaves the current profile, so the next request terminates the dead process and respawns the same command |
| Ffmpeg.StoppedIsNotRestarted | src/ffmpeg.py:49-59 | a stopped instance asked for its last profile starts nothing and stays without a process |
| Ffmpeg.FleetAt | src/ffmpeg.py:82-85 | in a round over all instances, each one ends exactly as if it had been asked alone |
| Ffmpeg.FleetRestartIdempotent | src/ffmpeg.py:82-85 | after a restart round in which every spawn stayed alive, repeating the round changes nothing and spawns nothing |
| Ffmpeg.Os.Spawn | src/ffmpeg.py:42-43 | spawning logs the command; the process has exited iff it was not alive at the poll |
| Ffmpeg.Os.Terminate | src/ffmpeg.py:52-53 | terminating and waiting logs the termination of that process's command |
| Ffmpeg.Instance.constructor | src/ffmpeg.py:13-24 | a new instance has its device and output, no process and no current profile |
| Ffmpeg.Instance.Stop | src/ffmpeg.py:49-54 | the new state and the operating-system log are those of `StopStep` |
| Ffmpeg.Instance.Start | src/ffmpeg.py:38-47 | the new state and the operating-system log are those of `StartStep` |
| Ffmpeg.Instance.RestartIfNeeded | src/ffmpeg.py:56-59 | the new state and the operating-system log are those of `RestartStep` |
| Ffmpeg.Controller.constructor | src/ffmpeg.py:63-70 | one fresh, distinct instance per configured device, in the dictionary's order |
| Ffmpeg.Controller.NewInstances | src/ffmpeg.py:66-67 | the loop creates one fresh instance per device in order, each in its fresh state |
| Ffmpeg.Controller.ForEachInstance | src/ffmpeg.py:82-85 | the loop leaves every instance in the state `Apply` gives it and appends the actions of all instances in order |
| Ffmpeg.Controller.Start | src/ffmpeg.py:72-75 | the instances and the log end as in a `Fleet` round of `start` |
| Ffmpeg.Controller.Stop | src/ffmpeg.py:77-80 | the instances and the log end as in a `Fleet` round of `stop` |
| Ffmpeg.Controller.RestartIfNeeded | src/ffmpeg.py:82-85 | the instances and the log end as in a `Fleet` round of `restart_if_needed` |
| SignalPolicy.TruncDiv | src/signalpolicy.py:38 | `int()` of the exact quotient `a / b`; `TruncDivBounds` proves that it truncates toward zero and `TruncDivMonotone` that it is monotone |
| SignalPolicy.TruncDivBounds | src/signalpolicy.py:38 | `int()` of the exact quotient truncates toward zero |
| SignalPolicy.DimAt | src/signalpolicy.py:31-36 | the dimension is `v - k*(v // S)`, or the fallback when that is 1 or less |
| SignalPolicy.KbpsAt | src/signalpolicy.py:38-40 | the bitrate of every step is at least 300 |
| SignalPolicy.FpsAt | src/signalpolicy.py:41-43 | the frame rate is at least 10; it is either 12 or base - 3k, and base - 3k whenever that is 10 or more |
| SignalPolicy.RungAt | src/signalpolicy.py:29-44 | every step keeps width and height above 1, bitrate at least 300 and fps at least 10 |
| SignalPolicy.Ladder | src/signalpolicy.py:29-44 | the ladder has `S + 1` steps, each above those floors |
| SignalPolicy.LadderProfiles | src/signalpolicy.py:23-44 | a step count below 1 is `InvalidSteps`; a successful ladder has `S + 1` profiles |
| SignalPolicy.ParseBase | src/signalpolicy.py:30-41 | the base reads iff the resolution splits on 'x' into exactly two integers, the bitrate has an integer before its first 'k' and the fps is an integer; it then holds those four numbers; a failure is never a step-count error |
| SignalPolicy.LadderProfilesRenderLadder | src/signalpolicy.py:29-44 | when the base reads, the engine's profiles are exactly the rendered steps of `Ladder` |
| SignalPolicy.ReadBase | src/signalpolicy.py:30-41 | the reads of the base strings at the top of each pass give `ParseBase` |
| SignalPolicy.FormatStep | src/signalpolicy.py:31-44 | the arithmetic, formatting and re-reads of one pass give exactly the rendered ladder step |
| SignalPolicy.BuildProfiles | src/signalpolicy.py:23-44 | the check and loop of `__init__` compute `LadderProfiles`, including every error |
| SignalPolicy.Render | src/signalpolicy.py:37-44 | the profile dict of a step, from the f-strings `"<w>x<h>"`, `"<kbps>k"` and `str(fps)`; reading it back gives the step (`ParseRender`), so it is one-to-one (`RenderInjective`) |
| SignalPolicy.KbpsFieldRender | src/signalpolicy.py:39 | a formatted bitrate reads back, before its 'k', as its number |
| SignalPolicy.ParseRender | src/signalpolicy.py:37-44 | reading a rendered step gives back its numbers |
| SignalPolicy.RenderInjective | src/signalpolicy.py:37-44 | two steps render to the same profile iff they are equal |
| SignalPolicy.KbpsNonIncreasing | src/signalpolicy.py:38-40 | the bitrate never rises from one step to a later one |
| SignalPolicy.KbpsEnds | src/signalpolicy.py:38-40 | step 0 keeps the base bitrate (at least 300); the last step is 300 |
| SignalPolicy.RawDimBounds | src/signalpolicy.py:31-32 | before the fallback, a dimension falls from the base value at step 0 to `v % S` at the last step, never rising |
| SignalPolicy.DimRisesAtLastStep | src/signalpolicy.py:31-36 | when `S` nearly divides the base value, the fallback makes the last step larger than the one before it |
| SignalPolicy.WidthLadderExample | src/signalpolicy.py:31-34 | a 640-pixel width over four steps gives 640, 480, 320, 160, 320 |
| SignalPolicy.FpsSteps | src/signalpolicy.py:41-43 | the frame rate falls by 3 per step while it stays at 10 or more, and is 12 after that |
| SignalPolicy.FirstStepIsBase | src/signalpolicy.py:29-44 | step 0 is the base itself when the base is above every floor |
| SignalPolicy.HalfwayExample | src/signalpolicy.py:29-44 | 1920x1080, 2000k, 30 fps over four steps: step 2 is 960x540, 1000k, 24 |
| SignalPolicy.Snr | src/signalpolicy.py:75-77 | the ratio is rssi minus noise, a missing value counting as -100 dBm; with both readings missing it is 0 |
| SignalPolicy.ProfileIndex | src/signalpolicy.py:80-83 | the selected index lies in `0..S` |
| SignalPolicy.ProfileIndexMonotone | src/signalpolicy.py:81-83 | a stronger signal never selects a more degraded step |
| SignalPolicy.WeakSignalUsesLastStep | src/signalpolicy.py:81-83 | a ratio under 10 dB, negative ones included, selects the last step |
| SignalPolicy.StrongSignalUsesBase | src/signalpolicy.py:81-83 | a ratio of at least `10 * S` dB selects step 0 |
| SignalPolicy.TenDecibelsPerStep | src/signalpolicy.py:81-83 | each further 10 dB moves exactly one step up while there is room |
| SignalPolicy.SignalPolicyEngine.Create | src/signalpolicy.py:15-44 | creation fails iff the ladder fails, with its error; otherwise the engine holds the step count and exactly the ladder's profiles |
| SignalPolicy.SignalPolicyEngine.EvaluateAndApply | src/signalpolicy.py:75-88 | the controller's instances and log end as in a restart round with the profile the reading's ratio selects |
| Quality.RssiToQuality | start.py:85-88 | no reading stays no reading; otherwise 0..100, 0 at or below -100 dBm, 100 at or above -50 dBm, and `2 * (rssi + 100)` in between |
| Quality.QualityMonotone | start.py:85-88 | a stronger signal never gives a lower quality |
| Quality.QualityStep | start.py:85-88 | each dBm between -100 and -50 is worth two points |

## Left out

- Python's `int()` also accepts surrounding whitespace, underscores between digits and non-ASCII digits. `Text.ParseInt` accepts only an optional sign and ASCII digits.
- SignalPolicy.KbpsAt: the bitrate factor `(S - k) / S` is a binary float in the source. The model uses the exact rational, so a product that rounds just below an integer in floating point is not modelled.
- Logging (every `logger` call) is not modelled; it does not affect state.
- Reading `main.conf` with `configparser`, the missing-file error, and the router, timeout, logfile and connection-check options are not modelled, because the core never reads them.
- The router client (`rciclient.py`), the polling loop (`main.py`), `connection_checker.py`, `ffpr.py`, the logger and everything in `start.py` except `rssi_to_quality` are not part of this model.
- Ffmpeg.ShellWordsIff: the command string is run by `/bin/sh` (`shell=True`). The lemma is about splitting at single spaces only. The shell's quoting, its metacharacters (`;`, `&`, `|`, `$`, globs), splitting at other whitespace and its removal of empty words are not modelled. So a device name or output containing shell syntax, which can inject commands, is outside the lemma.
- Ffmpeg.Os.Terminate: `process.wait()` is not modelled as blocking; a hung process would block forever in the source. Reading the standard error of a failed spawn is not modelled either.
- Ffmpeg.Instance.Start: whether a spawned process is alive at its single `poll()` is an oracle input. A process crashing later is not modelled, so it goes unnoticed until the profile changes, as in the source.
- Ffmpeg.Instance.constructor: the instance's copies of resolution, bitrate and fps are not modelled, because no method reads them.
- SignalPolicy.SignalPolicyEngine.Create: the `client` parameter is not modelled, because the core does not use it.
- SignalPolicy.SignalPolicyEngine.EvaluateAndApply: the readings are taken to be integers already. `int()` of a non-integer `signal_data` value is not modelled.
- Concurrency: the source runs on one thread, and the model is sequential.
