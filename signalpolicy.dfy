/** The signal policy: a ladder of encoder profiles built once from the base
    profile of the configuration, from the full base quality at step 0 down
    to the most degraded one at step `degradation_steps`, and the choice of
    a step from the Wi-Fi signal-to-noise ratio measured on each round. */
module SignalPolicy {
  import opened Text
  import opened Ffmpeg
  import Config

  /** The numbers of one ladder step before they are formatted. */
  datatype Rung = Rung(width: int, height: int, kbps: int, fps: int)

  /** Why building the ladder raises `ValueError`. */
  datatype PolicyError = InvalidSteps | BadResolution | BadBitrate | BadFps

  /** `int(x)` of a float `x` that is the exact quotient `a / b`. */
  function TruncDiv(a: int, b: int): int
    requires b > 0
  {
    if a >= 0 then a / b else -((-a) / b)
  }

  lemma FloorBounds(a: int, b: int)
    requires a >= 0 && b > 0
    ensures 0 <= a / b && (a / b) * b <= a < (a / b) * b + b
  {
    var q, r := a / b, a % b;
    assert a == b * q + r && 0 <= r < b;
    assert b * q == q * b;
  }

  /** `TruncDiv` truncates toward zero: its result times `b` is the
      multiple of `b` closest to `a` on the side of zero. */
  lemma TruncDivBounds(a: int, b: int)
    requires b > 0
    ensures var q := TruncDiv(a, b);
      && (0 <= a ==> 0 <= q && q * b <= a < q * b + b)
      && (a < 0 ==> q <= 0 && q * b - b < a <= q * b)
  {
    if a >= 0 {
      FloorBounds(a, b);
    } else {
      FloorBounds(-a, b);
      var q := (-a) / b;
      assert -q * b == -(q * b);
    }
  }

  /** A dimension after `k` steps, before the floor: the base value less
      `k` times its floor-divided share `v // S`. */
  function RawDim(v: int, steps: int, k: int): int
    requires steps >= 1
  {
    v - k * (v / steps)
  }

  /** A dimension after `k` steps: a value of 1 or less is replaced by the
      fallback `floor` (320 for the width, 240 for the height). */
  function DimAt(v: int, steps: int, k: int, floor: int): (d: int)
    requires steps >= 1
    ensures RawDim(v, steps, k) > 1 ==> d == RawDim(v, steps, k)
    ensures RawDim(v, steps, k) <= 1 ==> d == floor
  {
    var raw := RawDim(v, steps, k);
    if raw <= 1 then floor else raw
  }

  /** The bitrate in kbit/s after `k` steps: `B * (S - k) / S` truncated,
      raised to 300 when it falls below. */
  function KbpsAt(b: int, steps: int, k: int): (r: int)
    requires steps >= 1
    ensures r >= 300
  {
    var n := TruncDiv(b * (steps - k), steps);
    if n < 300 then 300 else n
  }

  /** The frame rate after `k` steps: three frames less per step, never
      below 1, and 12 whenever that would be under 10. */
  function FpsAt(f: int, k: int): (r: int)
    ensures r >= 10
    ensures r == 12 || r == f - 3 * k
    ensures f - 3 * k >= 10 ==> r == f - 3 * k
  {
    var x := if f - 3 * k > 0 then f - 3 * k else 1;
    if x < 10 then 12 else x
  }

  function RungAt(base: Rung, steps: int, k: int): (r: Rung)
    requires steps >= 1
    ensures r.width > 1 && r.height > 1 && r.kbps >= 300 && r.fps >= 10
  {
    Rung(DimAt(base.width, steps, k, 320), DimAt(base.height, steps, k, 240),
         KbpsAt(base.kbps, steps, k), FpsAt(base.fps, k))
  }

  /** Steps 0 to `steps`, both included. */
  function Ladder(base: Rung, steps: int): (r: seq<Rung>)
    requires steps >= 1
    ensures |r| == steps + 1
    ensures forall k :: 0 <= k < |r| ==> r[k].width > 1 && r[k].height > 1 && r[k].kbps >= 300 && r[k].fps >= 10
  {
    seq(steps + 1, k requires 0 <= k <= steps => RungAt(base, steps, k))
  }

  /** The profile dict of a step: `"<w>x<h>"`, `"<kbps>k"` and `"<fps>"`. */
  function Render(r: Rung): Profile
  {
    Profile(IntToString(r.width) + "x" + IntToString(r.height), IntToString(r.kbps) + "k", IntToString(r.fps))
  }

  /** The number in front of the first 'k' of a bitrate string. */
  function KbpsField(bitrate: string): Option<int>
  {
    ParseInt(Split(bitrate, 'k')[0])
  }

  /** Reads the base profile strings as the loop does: the resolution must
      split on 'x' into exactly two integers, the bitrate must be an integer
      before its first 'k', and the fps an integer. */
  function ParseBase(resolution: string, bitrate: string, fps: string): (r: Result<Rung, PolicyError>)
    ensures var parts := Split(resolution, 'x');
      r.Success? <==>
        && |parts| == 2 && ParseInt(parts[0]).Some? && ParseInt(parts[1]).Some?
        && KbpsField(bitrate).Some? && ParseInt(fps).Some?
    ensures r.Success? ==>
      var parts := Split(resolution, 'x');
      r.value == Rung(ParseInt(parts[0]).value, ParseInt(parts[1]).value, KbpsField(bitrate).value, ParseInt(fps).value)
    ensures r.Failure? ==> r.error != InvalidSteps
  {
    var parts := Split(resolution, 'x');
    if |parts| != 2 then Failure(BadResolution)
    else
      match (ParseInt(parts[0]), ParseInt(parts[1]))
      case (Some(w), Some(h)) =>
        (match KbpsField(bitrate)
         case None => Failure(BadBitrate)
         case Some(b) =>
           match ParseInt(fps)
           case None => Failure(BadFps)
           case Some(f) => Success(Rung(w, h, b, f)))
      case _ => Failure(BadResolution)
  }

  /** Steps `0..n-1` of the ladder, rendered. */
  function RenderedSteps(base: Rung, steps: int, n: nat): (r: seq<Profile>)
    requires steps >= 1
    ensures |r| == n
  {
    seq(n, k requires 0 <= k < n => Render(RungAt(base, steps, k)))
  }

  lemma RenderedStepsSnoc(base: Rung, steps: int, n: nat)
    requires steps >= 1
    ensures RenderedSteps(base, steps, n + 1) == RenderedSteps(base, steps, n) + [Render(RungAt(base, steps, n))]
  {
  }

  /** `self.profiles` built from the configuration's base profile and
      `degradation_steps`. */
  function LadderProfiles(resolution: string, bitrate: string, fps: string, steps: int): (r: Result<seq<Profile>, PolicyError>)
    ensures steps < 1 ==> r == Failure(InvalidSteps)
    ensures r.Success? ==> |r.value| == steps + 1
  {
    if steps < 1 then Failure(InvalidSteps)
    else
      match ParseBase(resolution, bitrate, fps)
      case Failure(e) => Failure(e)
      case Success(base) => Success(RenderedSteps(base, steps, steps + 1))
  }

  /** The profiles of the engine are the rendered steps of `Ladder`. */
  lemma LadderProfilesRenderLadder(resolution: string, bitrate: string, fps: string, steps: int)
    requires steps >= 1 && ParseBase(resolution, bitrate, fps).Success?
    ensures var ladder := Ladder(ParseBase(resolution, bitrate, fps).value, steps);
      LadderProfiles(resolution, bitrate, fps, steps)
        == Success(seq(steps + 1, k requires 0 <= k <= steps => Render(ladder[k])))
  {
    var base := ParseBase(resolution, bitrate, fps).value;
    var ladder := Ladder(base, steps);
    var rendered := seq(steps + 1, k requires 0 <= k <= steps => Render(ladder[k]));
    assert RenderedSteps(base, steps, steps + 1) == rendered;
  }

  lemma SmallNumbers()
    ensures IntToString(300) + "k" == "300k" && IntToString(12) == "12"
  {
    assert NatToString(3) == "3" && NatToString(30) == "30";
  }

  /** The reads of the base strings at the top of a pass of the loop of
      `__init__`: the resolution split on 'x' and unpacked into two
      integers, the bitrate before its first 'k', then the fps. */
  method ReadBase(resolution: string, bitrate: string, fps: string) returns (r: Result<Rung, PolicyError>)
    ensures r == ParseBase(resolution, bitrate, fps)
  {
    var parts := Split(resolution, 'x');
    if |parts| != 2 {
      return Failure(BadResolution);
    }
    var w0, h0 := ParseInt(parts[0]), ParseInt(parts[1]);
    if w0.None? || h0.None? {
      return Failure(BadResolution);
    }
    var b0 := KbpsField(bitrate);
    if b0.None? {
      return Failure(BadBitrate);
    }
    var f0 := ParseInt(fps);
    if f0.None? {
      return Failure(BadFps);
    }
    return Success(Rung(w0.value, h0.value, b0.value, f0.value));
  }

  /** The rest of a pass: the numbers of step `step` computed from the base
      numbers and formatted; the bitrate and fps strings are read back
      before their floors are applied. */
  method FormatStep(base: Rung, steps: int, step: int) returns (p: Profile)
    requires steps >= 1
    ensures p == Render(RungAt(base, steps, step))
  {
    ghost var rung := RungAt(base, steps, step);
    var width := base.width - step * (base.width / steps);
    var height := base.height - step * (base.height / steps);
    if width <= 1 {
      width := 320;
    }
    if height <= 1 {
      height := 240;
    }
    assert width == rung.width && height == rung.height;
    var res := IntToString(width) + "x" + IntToString(height);
    var n := TruncDiv(base.kbps * (steps - step), steps);
    var br := IntToString(n) + "k";
    KbpsFieldRender(n);
    SmallNumbers();
    if KbpsField(br).value < 300 {
      br := "300k";
      assert rung.kbps == 300;
    } else {
      assert rung.kbps == n;
    }
    var f := if base.fps - step * 3 > 0 then base.fps - step * 3 else 1;
    var fs := IntToString(f);
    IntRoundTrip(f);
    if ParseInt(fs).value < 10 {
      fs := "12";
      assert rung.fps == 12;
    } else {
      assert rung.fps == f;
    }
    p := Profile(res, br, fs);
    assert p.resolution == Render(rung).resolution;
    assert p.bitrate == Render(rung).bitrate;
  }

  /** The loop of `__init__` that fills `self.profiles`, preceded by the
      check of the step count. Every pass reads the base strings again. */
  method BuildProfiles(resolution: string, bitrate: string, fps: string, steps: int)
    returns (r: Result<seq<Profile>, PolicyError>)
    ensures r == LadderProfiles(resolution, bitrate, fps, steps)
  {
    if steps < 1 {
      return Failure(InvalidSteps);
    }
    var profiles: seq<Profile> := [];
    for step := 0 to steps + 1
      invariant |profiles| == step
      invariant step == 0 ==> profiles == []
      invariant step > 0 ==> ParseBase(resolution, bitrate, fps).Success?
      invariant step > 0 ==> profiles == RenderedSteps(ParseBase(resolution, bitrate, fps).value, steps, step)
    {
      var base := ReadBase(resolution, bitrate, fps);
      if base.Failure? {
        return Failure(base.error);
      }
      var p := FormatStep(base.value, steps, step);
      RenderedStepsSnoc(base.value, steps, step);
      profiles := profiles + [p];
    }
    return Success(profiles);
  }

  /** A formatted bitrate reads back as the number it was formatted from. */
  lemma KbpsFieldRender(n: int)
    ensures KbpsField(IntToString(n) + "k") == Some(n)
  {
    var a := IntToString(n);
    IntToStringAvoids(n, 'k');
    assert a + "k" == a + ['k'] + [];
    IndexOfAfter(a, 'k', []);
    assert (a + "k")[..|a|] == a;
    IntRoundTrip(n);
  }

  /** A formatted resolution splits on 'x' into the two formatted numbers. */
  lemma ResolutionRender(w: int, h: int)
    ensures Split(IntToString(w) + "x" + IntToString(h), 'x') == [IntToString(w), IntToString(h)]
  {
    var a, b := IntToString(w), IntToString(h);
    IntToStringAvoids(w, 'x');
    IntToStringAvoids(h, 'x');
    var parts := [a, b];
    assert parts[1..] == [b];
    assert Join(parts, 'x') == a + "x" + b;
    SplitJoin(parts, 'x');
  }

  /** Reading a rendered step gives back its numbers; rendering is therefore
      one-to-one. */
  lemma ParseRender(r: Rung)
    ensures ParseBase(Render(r).resolution, Render(r).bitrate, Render(r).fps) == Success(r)
  {
    ResolutionRender(r.width, r.height);
    IntRoundTrip(r.width);
    IntRoundTrip(r.height);
    KbpsFieldRender(r.kbps);
    IntRoundTrip(r.fps);
  }

  lemma RenderInjective(r1: Rung, r2: Rung)
    ensures Render(r1) == Render(r2) <==> r1 == r2
  {
    ParseRender(r1);
    ParseRender(r2);
  }

  lemma MulLe(x: int, y: int, b: int)
    requires b > 0 && x <= y
    ensures x * b <= y * b
  {
    assert y * b - x * b == (y - x) * b;
  }

  lemma DivMonotone(a1: int, a2: int, b: int)
    requires b > 0 && 0 <= a1 <= a2
    ensures a1 / b <= a2 / b
  {
    var q1, q2 := a1 / b, a2 / b;
    if q1 > q2 {
      assert (q2 + 1) * b == q2 * b + b;
      MulLe(q2 + 1, q1, b);
    }
  }

  lemma TruncDivMonotone(a1: int, a2: int, b: int)
    requires b > 0 && a1 <= a2
    ensures TruncDiv(a1, b) <= TruncDiv(a2, b)
  {
    if 0 <= a1 {
      DivMonotone(a1, a2, b);
    } else if a2 < 0 {
      DivMonotone(-a2, -a1, b);
    } else {
      TruncDivBounds(a1, b);
      TruncDivBounds(a2, b);
    }
  }

  /** `(b * S) // S == b` for a non-negative `b`. */
  lemma MulDiv(b: int, s: int)
    requires b >= 0 && s > 0
    ensures (b * s) / s == b
  {
    var q := (b * s) / s;
    assert b * s == s * q + (b * s) % s;
    assert s * (b - q) == (b * s) % s;
    if b - q >= 1 {
      MulLe(1, b - q, s);
    } else if b - q <= -1 {
      MulLe(b - q, -1, s);
    }
  }

  /** The bitrate never rises from one step to the next. */
  lemma KbpsNonIncreasing(b: int, steps: int, k1: int, k2: int)
    requires steps >= 1 && 0 <= k1 <= k2 <= steps
    ensures KbpsAt(b, steps, k2) <= KbpsAt(b, steps, k1)
  {
    var a1, a2 := b * (steps - k1), b * (steps - k2);
    if b > 0 {
      MulLe(steps - k2, steps - k1, b);
      assert a1 == (steps - k1) * b && a2 == (steps - k2) * b;
      TruncDivMonotone(a2, a1, steps);
    } else if b < 0 {
      MulLe(0, steps - k1, -b);
      MulLe(0, steps - k2, -b);
      assert a1 == -((steps - k1) * -b) && a2 == -((steps - k2) * -b);
      TruncDivBounds(a1, steps);
      TruncDivBounds(a2, steps);
    }
  }

  /** Step 0 keeps the base bitrate (at least 300) and the last step is
      always 300 kbit/s. */
  lemma KbpsEnds(b: int, steps: int)
    requires steps >= 1
    ensures KbpsAt(b, steps, 0) == if b < 300 then 300 else b
    ensures KbpsAt(b, steps, steps) == 300
  {
    assert b * (steps - 0) == b * steps && b * (steps - steps) == 0;
    if b >= 0 {
      MulDiv(b, steps);
    } else {
      MulDiv(-b, steps);
      assert -(b * steps) == (-b) * steps;
    }
  }

  /** For a non-negative base, the unfloored dimension shrinks from the base
      value at step 0 to the remainder `v % S` at the last step. */
  lemma RawDimBounds(v: int, steps: int, k1: int, k2: int)
    requires v >= 0 && steps >= 1 && 0 <= k1 <= k2 <= steps
    ensures RawDim(v, steps, 0) == v && RawDim(v, steps, steps) == v % steps
    ensures v % steps <= RawDim(v, steps, k2) <= RawDim(v, steps, k1) <= v
  {
    var share := v / steps;
    assert share >= 0;
    assert k1 * share <= k2 * share <= steps * share;
  }

  /** The floor can make a dimension rise at the last step: when `S` divides
      the base value almost exactly, the last step falls to the floor, which
      is larger than the step before whenever the share `v // S` is small. */
  lemma DimRisesAtLastStep(v: int, steps: int, floor: int)
    requires v >= 0 && steps >= 1 && v % steps <= 1
    requires 1 < v / steps + v % steps < floor
    ensures DimAt(v, steps, steps, floor) == floor
    ensures DimAt(v, steps, steps - 1, floor) < DimAt(v, steps, steps, floor)
  {
    RawDimBounds(v, steps, steps - 1, steps);
    assert v == steps * (v / steps) + v % steps;
    assert RawDim(v, steps, steps - 1) == v / steps + v % steps;
  }

  /** A 640 pixel width over four steps: 640, 480, 320, 160 and then 320
      again. */
  lemma WidthLadderExample()
    ensures DimAt(640, 4, 0, 320) == 640 && DimAt(640, 4, 1, 320) == 480 && DimAt(640, 4, 2, 320) == 320
    ensures DimAt(640, 4, 3, 320) == 160 && DimAt(640, 4, 4, 320) == 320
  {
    assert 640 / 4 == 160;
  }

  /** The frame rate falls by three per step as long as it stays at 10 or
      more; below that it becomes 12, which can be more than the step before. */
  lemma FpsSteps(f: int, k: int)
    requires k >= 0
    ensures f - 3 * (k + 1) >= 10 ==> FpsAt(f, k + 1) == FpsAt(f, k) - 3
    ensures f - 3 * (k + 1) < 10 ==> FpsAt(f, k + 1) == 12
  {
  }

  /** Step 0 is the base itself when the base is above every floor. */
  lemma FirstStepIsBase(base: Rung, steps: int)
    requires steps >= 1
    requires base.width > 1 && base.height > 1 && base.kbps >= 300 && base.fps >= 10
    ensures RungAt(base, steps, 0) == base
  {
    KbpsEnds(base.kbps, steps);
  }

  /** 1920x1080 at 2000k and 30 fps over four steps: step 2 is half the size
      and half the bitrate at 24 fps. */
  lemma HalfwayExample()
    ensures Render(RungAt(Rung(1920, 1080, 2000, 30), 4, 2)) == Profile("960x540", "1000k", "24")
  {
    assert TruncDiv(2000 * 2, 4) == 1000;
    assert RungAt(Rung(1920, 1080, 2000, 30), 4, 2) == Rung(960, 540, 1000, 24);
    assert NatToString(960) == "960";
    assert NatToString(540) == "540";
    assert NatToString(1000) == "1000";
    assert NatToString(24) == "24";
  }

  /** A Wi-Fi reading: `rssi` and `noise` in dBm, each possibly missing. */
  datatype Reading = Reading(rssi: Option<int>, noise: Option<int>)

  function OrMissing(v: Option<int>): int
  {
    if v.Some? then v.value else -100
  }

  /** The signal-to-noise ratio; a missing value counts as -100 dBm. */
  function Snr(reading: Reading): (snr: int)
    ensures reading.rssi.None? && reading.noise.None? ==> snr == 0
    ensures reading.rssi.Some? && reading.noise.None? ==> snr == reading.rssi.value + 100
    ensures reading.rssi.None? && reading.noise.Some? ==> snr == -100 - reading.noise.value
    ensures reading.rssi.Some? && reading.noise.Some? ==> snr == reading.rssi.value - reading.noise.value
  {
    OrMissing(reading.rssi) - OrMissing(reading.noise)
  }

  /** The ladder step for a ratio: one step up the ladder for every full
      10 dB, a negative ratio counting as 0, clamped to `0..steps`. */
  function ProfileIndex(steps: int, snr: int): (i: int)
    ensures 0 <= i && (steps >= 0 ==> i <= steps)
  {
    var effective := if snr > 0 then snr else 0;
    var raw := steps - effective / 10;
    var capped := if raw < steps then raw else steps;
    if capped > 0 then capped else 0
  }

  /** A stronger signal never selects a more degraded step. */
  lemma ProfileIndexMonotone(steps: int, snr1: int, snr2: int)
    requires snr1 <= snr2
    ensures ProfileIndex(steps, snr2) <= ProfileIndex(steps, snr1)
  {
    DivMonotone(if snr1 > 0 then snr1 else 0, if snr2 > 0 then snr2 else 0, 10);
  }

  /** Under 10 dB, missing readings included, the most degraded step is used. */
  lemma WeakSignalUsesLastStep(steps: int, snr: int)
    requires steps >= 0 && snr < 10
    ensures ProfileIndex(steps, snr) == steps
  {
    var effective := if snr > 0 then snr else 0;
    assert effective / 10 == 0;
  }

  /** From `10 * steps` dB on, the base profile is used. */
  lemma StrongSignalUsesBase(steps: int, snr: int)
    requires steps >= 0 && snr >= 10 * steps
    ensures ProfileIndex(steps, snr) == 0
  {
    DivMonotone(10 * steps, snr, 10);
    MulDiv(steps, 10);
    assert steps * 10 == 10 * steps;
  }

  /** Every further 10 dB improves the step by exactly one while the ladder
      has room. */
  lemma TenDecibelsPerStep(steps: int, snr: int)
    requires snr >= 0 && snr / 10 < steps
    ensures ProfileIndex(steps, snr + 10) == ProfileIndex(steps, snr) - 1
  {
    assert (snr + 10) / 10 == snr / 10 + 1;
  }

  /** `SignalPolicyEngine`: the ladder built at creation and the encoder
      controller it drives. */
  class SignalPolicyEngine {
    const ffmpeg: Controller
    const degradationSteps: int
    const profiles: seq<Profile>

    ghost predicate Valid()
    {
      ffmpeg.Valid() && degradationSteps >= 1 && |profiles| == degradationSteps + 1
    }

    constructor (ffmpeg: Controller, degradationSteps: int, profiles: seq<Profile>)
      ensures this.ffmpeg == ffmpeg && this.degradationSteps == degradationSteps && this.profiles == profiles
    {
      this.ffmpeg := ffmpeg;
      this.degradationSteps := degradationSteps;
      this.profiles := profiles;
    }

    /** `__init__`: fails with `ValueError` when the step count is below 1
        or a base profile string does not read as numbers. */
    static method Create(ffmpeg: Controller, config: Config.Config) returns (r: Result<SignalPolicyEngine, PolicyError>)
      requires ffmpeg.Valid()
      ensures var ladder := LadderProfiles(config.resolution, config.bitrate, config.fps, config.degradationSteps);
        && (r.Failure? <==> ladder.Failure?)
        && (r.Failure? ==> r.error == ladder.error)
        && (r.Success? ==>
              && fresh(r.value) && r.value.Valid() && r.value.ffmpeg == ffmpeg
              && r.value.degradationSteps == config.degradationSteps
              && r.value.profiles == ladder.value)
    {
      var built := BuildProfiles(config.resolution, config.bitrate, config.fps, config.degradationSteps);
      if built.Failure? {
        return Failure(built.error);
      }
      var engine := new SignalPolicyEngine(ffmpeg, config.degradationSteps, built.value);
      return Success(engine);
    }

    /** `evaluate_and_apply`: selects the step for the reading's ratio and
        asks every instance to restart with it if it differs from the
        instance's current profile. */
    method EvaluateAndApply(reading: Reading, alive: string -> bool)
      requires Valid()
      modifies ffmpeg.Repr, ffmpeg.os
      ensures var p := profiles[ProfileIndex(degradationSteps, Snr(reading))];
        && ffmpeg.Models() == Fleet(old(ffmpeg.Models()), RestartOp(p), alive).next
        && ffmpeg.os.log == old(ffmpeg.os.log) + Fleet(old(ffmpeg.Models()), RestartOp(p), alive).actions
    {
      var snr := Snr(reading);
      var index := ProfileIndex(degradationSteps, snr);
      ffmpeg.RestartIfNeeded(profiles[index], alive);
    }
  }
}
