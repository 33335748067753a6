/** StageManager: the one-shot stage-light dimming routine. */
module Stage {
  import opened UnityMath

  /** Number of passes of the dimming loop (`while (t < 100)`). */
  const DimSteps: nat := 100

  /** Initializer value of the serialized `dimTime` field. */
  const DefaultDimTime: real := 2.0

  /** The intensity the dimming loop writes on pass t: Lerp(1, 0.5, t). Because
      Lerp clamps its parameter, only the first pass writes 1; every later pass
      writes 0.5. */
  function DimIntensity(t: int): (r: real)
    ensures 0.5 <= r <= 1.0
    ensures r == 1.0 <==> t <= 0
    ensures t >= 1 ==> r == 0.5
  {
    Lerp(1.0, 0.5, t as real)
  }

  /** The intensities written by the first n passes of the dimming loop, in order. */
  function DimTrace(n: nat): seq<real>
  {
    if n == 0 then [] else DimTrace(n - 1) + [DimIntensity(n - 1)]
  }

  /** The written sequence is 1 followed by n - 1 copies of 0.5. */
  lemma {:induction false} DimTraceShape(n: nat)
    ensures |DimTrace(n)| == n
    ensures forall i :: 0 <= i < n ==> DimTrace(n)[i] == if i == 0 then 1.0 else 0.5
  {
    if n > 0 {
      DimTraceShape(n - 1);
    }
  }

  /** Every written intensity lies in [0.5, 1], the sequence never increases, and
      a run of at least one pass ends at 0.5 exactly when it has a second pass. */
  lemma DimTraceMonotone(n: nat)
    ensures |DimTrace(n)| == n
    ensures forall i :: 0 <= i < n ==> 0.5 <= DimTrace(n)[i] <= 1.0
    ensures forall i, j :: 0 <= i <= j < n ==> DimTrace(n)[j] <= DimTrace(n)[i]
    ensures n >= 1 ==> (DimTrace(n)[n - 1] == 0.5 <==> n >= 2)
  {
    DimTraceShape(n);
  }

  /** Where the DimLights coroutine stands: not started, suspended at its only
      `yield return null`, or finished. */
  datatype DimRoutine = NotStarted | SuspendedAtYield | Finished

  class StageManager {
    /** Guard flag: false at creation, set by DimLights and never cleared. */
    var lightsDimming: bool
    /** stageLight.intensity */
    var intensity: real
    /** The static `userPerforming` flag; Dafny has no mutable static fields, so
        it is held here. Nothing in StageManager writes it. */
    var userPerforming: bool
    /** Serialized `dimTime`; declared but not read by the dimming routine. */
    var dimTime: real
    /** Every value assigned to stageLight.intensity, in order. */
    ghost var writes: seq<real>
    ghost var routine: DimRoutine

    /** Dimming has happened at most once: either no routine has started and no
        intensity was written, or exactly one full run of the loop was written. */
    ghost predicate Valid()
      reads this
    {
      && (lightsDimming <==> routine != NotStarted)
      && writes == (if lightsDimming then DimTrace(DimSteps) else [])
    }

    /** `performing` is the value the static flag has when the stage is created;
        `serializedDimTime` is the inspector value of `dimTime`. */
    constructor (lightIntensity: real, performing: bool, serializedDimTime: real)
      ensures Valid()
      ensures !lightsDimming && userPerforming == performing && dimTime == serializedDimTime
      ensures intensity == lightIntensity && writes == [] && routine == NotStarted
    {
      lightsDimming := false;
      intensity := lightIntensity;
      userPerforming := performing;
      dimTime := serializedDimTime;
      writes := [];
      routine := NotStarted;
    }

    /** Starts the dimming coroutine unless it has already been started. The
        coroutine runs synchronously up to its first yield, so the whole ramp
        is written before this call returns. */
    method StartLightsDimming()
      requires Valid()
      modifies this`lightsDimming, this`intensity, this`writes, this`routine
      ensures Valid() && lightsDimming && routine != NotStarted
      ensures old(lightsDimming) ==> intensity == old(intensity) && writes == old(writes) && routine == old(routine)
      ensures !old(lightsDimming) ==> intensity == 0.5 && writes == DimTrace(DimSteps) && routine == SuspendedAtYield
    {
      if lightsDimming == false {
        DimLights();
      }
    }

    /** The body of the DimLights coroutine up to its `yield`: set the guard,
        then write Lerp(1, 0.5, t) for t = 0, 1, ..., 99. */
    method DimLights()
      modifies this`lightsDimming, this`intensity, this`writes, this`routine
      ensures lightsDimming && intensity == 0.5 && routine == SuspendedAtYield
      ensures writes == old(writes) + DimTrace(DimSteps)
    {
      lightsDimming := true;
      var t := 0;
      while t < 100
        invariant 0 <= t <= DimSteps
        invariant writes == old(writes) + DimTrace(t)
        invariant t > 0 ==> intensity == DimIntensity(t - 1)
        invariant lightsDimming
      {
        intensity := Lerp(1.0, 0.5, t as real);
        writes := writes + [intensity];
        t := t + 1;
      }
      routine := SuspendedAtYield;
    }

    /** The next frame's resumption of DimLights after its `yield`: it only
        logs, so no field other than the routine's position changes. */
    method ResumeDimLights()
      requires Valid() && routine == SuspendedAtYield
      modifies this`routine
      ensures Valid() && routine == Finished
    {
      routine := Finished;
    }
  }

  /** Two presses of the dim key on a fresh stage: the second call is a no-op,
      so the ramp is written exactly once and the light ends at 0.5. The static
      `userPerforming` flag keeps whatever value it had. */
  method DimKeyPressedTwice(lightIntensity: real, performing: bool)
    returns (dimming: bool, finalIntensity: real, stillPerforming: bool, ghost written: seq<real>)
    ensures dimming && finalIntensity == 0.5
    ensures stillPerforming == performing
    ensures |written| == DimSteps && written[0] == 1.0
    ensures forall i :: 1 <= i < DimSteps ==> written[i] == 0.5
  {
    var stage := new StageManager(lightIntensity, performing, DefaultDimTime);
    stage.StartLightsDimming();
    stage.StartLightsDimming();
    dimming, finalIntensity, stillPerforming := stage.lightsDimming, stage.intensity, stage.userPerforming;
    written := stage.writes;
    DimTraceShape(DimSteps);
  }
}
