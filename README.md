# LivePerformanceVR: stage dimming and audience interruptions

A Dafny model of the two scripts that carry logic in this Unity project:

- **StageManager** dims the stage light once. `StartLightsDimming` launches the
  `DimLights` coroutine only while the `lightsDimming` flag is false. `DimLights`
  sets the flag, which nothing ever clears. It then runs an integer loop
  `t = 0 … 99` that writes `Mathf.Lerp(1, 0.5f, t)` to the light. `Lerp` clamps
  its parameter to [0, 1], so the light gets 1 once and then 0.5 ninety-nine
  times. The loop finishes before the coroutine's only `yield`, so the light is
  at 0.5 when `StartLightsDimming` returns.
- **AudienceMemberManager** runs a loop `while (inPerformance)` after it is
  started. Each pass waits `interruptionDelayTime + Random.Range(-v, v)`
  seconds, then plays clip number `CeilToInt(Random.value * n) - 1` of the
  interruption array. It does not look at `inPerformance` again between the
  wait and the play.

Module layout:

- `UnityMath` (`unity_math.dfy`): the documented contracts of `Mathf.Lerp`
  (with its clamp), `Mathf.CeilToInt`, `Random.value` and `Random.Range`,
  over mathematical reals.
- `Interruption` (`audience_interruption.dfy`): the `AudienceInterruption`
  record (an optional animation and an optional noise), used as plain data.
- `Stage` (`stage_manager.dfy`): the `StageManager` class. The fields are
  `lightsDimming`, the light `intensity`, `userPerforming` and `dimTime`. A ghost
  log `writes` holds every intensity written, and a ghost `routine` holds the
  position of the `DimLights` coroutine. `DimTrace(n)` is the
  specification of the intensities written by the first `n` passes of the
  loop. `Valid()` says dimming has happened at most once: the log is empty, or
  it is exactly one full run of the loop.
- `Audience` (`audience_member_manager.dfy`): the `AudienceMemberManager` class
  and a `RunAudienceMember` class. Each `RunAudienceMember` object is one coroutine
  started by `StartCoroutine`. `StartAudienceMember` creates one and runs it to
  its first wait. `RunAudienceMember.Resume` is what happens when a wait ends:
  choose, play, test the loop, then wait again or exit. Random draws are
  parameters, restricted to the ranges Unity documents. Playing a clip appends
  its index to the ghost log `played` and its noise to the ghost log `noises`.

## Model

| member | source | states |
|---|---|---|
| `UnityMath.Lerp` | Assets/Scripts/StageManager.cs:45 | Lerp returns `a` for t ≤ 0 and `b` for t ≥ 1, and never leaves the segment between `a` and `b`. |
| `UnityMath.CeilToInt` | Assets/Scripts/AudienceMemberManager.cs:82 | The result `n` is the least integer not below `x`: `n - 1 < x ≤ n`. |
| `Stage.DimIntensity` | Assets/Scripts/StageManager.cs:45 | The value written on pass `t` lies in [0.5, 1]. It is 1 exactly when t ≤ 0, and it is 0.5 for every t ≥ 1, because of Lerp's clamp. |
| `Stage.DimTraceShape` | Assets/Scripts/StageManager.cs:42-50 | `n` passes write exactly `n` values: first 1, then 0.5 each time. |
| `Stage.DimTraceMonotone` | Assets/Scripts/StageManager.cs:42-50 | Every written value lies in [0.5, 1]. The sequence never increases. A run of at least one pass ends at 0.5 exactly when it has two or more passes. |
| `Stage.StageManager.constructor` | Assets/Scripts/StageManager.cs:7-13 | A new stage has `lightsDimming` false, the serialized `dimTime` it is given, no intensity written and the dimming routine not started; `userPerforming` keeps the value it is given. |
| `Stage.StageManager.StartLightsDimming` | Assets/Scripts/StageManager.cs:30-36 | If `lightsDimming` was already true, nothing changes. Otherwise, by the time the call returns, the whole 100-pass ramp has been written, the light is at 0.5 and the routine is suspended at its yield. `Valid()` (at most one dimming) is kept, and `userPerforming` and `dimTime` are outside the frame. |
| `Stage.StageManager.DimLights` | Assets/Scripts/StageManager.cs:38-52 | Sets `lightsDimming`. Appends exactly the 100 values `DimTrace(100)` to the intensity log and leaves the light at 0.5 before the yield. |
| `Stage.StageManager.ResumeDimLights` | Assets/Scripts/StageManager.cs:54-56 | The resumption after the yield changes only the routine's position to finished. |
| `Stage.DimKeyPressedTwice` | Assets/Scripts/StageManager.cs:24-36 | Two presses of the dim key on a fresh stage write the ramp only once: 100 values, 1 then 0.5. The flag ends true, the light at 0.5, and `userPerforming` is unchanged. |
| `Audience.WaitDuration` | Assets/Scripts/AudienceMemberManager.cs:79 | Every wait lies in [delay − abs(variability), delay + abs(variability)]. It is not clamped at zero. |
| `Audience.WaitWindowTight` | Assets/Scripts/AudienceMemberManager.cs:79 | Both ends of that window are produced by allowed draws. |
| `Audience.DefaultWaitWindow` | Assets/Scripts/AudienceMemberManager.cs:25-31 | With the serialized defaults (10 and 2), every wait lies in [8, 12]. |
| `Audience.NegativeWaitIff` | Assets/Scripts/AudienceMemberManager.cs:79 | Some allowed draw gives a negative wait if and only if the variability exceeds the delay. |
| `Audience.InterruptionNumber` | Assets/Scripts/AudienceMemberManager.cs:81-82 | `CeilToInt(rand · n)` lies in [0, n]. It is 0 exactly when rand = 0 or the array is empty. |
| `Audience.SelectInterruption` | Assets/Scripts/AudienceMemberManager.cs:81-83 | The index is valid (in [0, n)) if and only if rand > 0 and n ≥ 1. Otherwise the index is −1, which is out of range. |
| `Audience.SelectInterval` | Assets/Scripts/AudienceMemberManager.cs:81-83 | Index `i` is chosen exactly when `i/n < rand ≤ (i+1)/n`. Each clip gets an interval of width 1/n. |
| `Audience.AudienceMemberManager.constructor` | Assets/Scripts/AudienceMemberManager.cs:11-37 | A member starts out of performance, with the serialized delay and variability it is given, nothing played, and the interruption array fetched at start-up. |
| `Audience.AudienceMemberManager.StartAudienceMember` | Assets/Scripts/AudienceMemberManager.cs:54-58 | Sets `inPerformance` to true. Returns a new coroutine that is already waiting for one computed duration. Only `inPerformance` changes. |
| `Audience.AudienceMemberManager.StopAudienceMember` | Assets/Scripts/AudienceMemberManager.cs:64-68 | Sets `inPerformance` to false and changes no other field. It does not change any running coroutine. |
| `Audience.RunAudienceMember.constructor` | Assets/Scripts/AudienceMemberManager.cs:74-79 | The first pass of the loop starts (as a wait of the computed duration) only if `inPerformance` is true; otherwise the coroutine exits. |
| `Audience.RunAudienceMember.Resume` | Assets/Scripts/AudienceMemberManager.cs:76-84 | After a wait, exactly one clip index is appended to the played log, and that interruption's noise to the log of sounds, without `inPerformance` being read, or the routine faults on index −1 and plays nothing. Next, the loop test decides: another wait if `inPerformance` holds, exit otherwise. The interruption array and the timings are outside the frame. |
| `Audience.StopDuringWait` | Assets/Scripts/AudienceMemberManager.cs:64-83 | A stop that arrives during a wait still lets exactly one interruption play before the routine exits. With rand = 0 or an empty array, it faults instead. |
| `Audience.NegativeWaitMember` | Assets/Scripts/AudienceMemberManager.cs:25-79 | A member configured with a variability larger than its delay is handed a negative wait, `delay − abs(variability)`, by its first coroutine. |
| `Audience.RestartOverlaps` | Assets/Scripts/AudienceMemberManager.cs:54-83 | Two starts launch two coroutines, and a stop cancels neither. Both play an interruption. |

## Left out

- Unity lifecycle callbacks. `Start` is folded into the `AudienceMemberManager` constructor, which receives the interruption array. `Update` and its F-key check (StageManager.cs:22-28) are input handling; `DimKeyPressedTwice` stands for two presses of the key.
- Event wiring (AudienceMemberManager.cs:37-41). `StageManager.GetAudienceInterruptions`, `OnPerformanceStartEvent` and `OnPerformaceEndEvent` are not in StageManager.cs. Start and stop are called directly.
- The coroutine scheduler and the passage of time. A wait is the duration it is given, not elapsed time. The model leaves it to the caller when a routine is resumed.
- `Debug.Log`, `GetComponent`, and the sound itself in `AudioSource.PlayOneShot`. The model records the index played and the clip passed to PlayOneShot (ghost logs `played` and `noises`), not the playback itself. The animation reference of an interruption is carried but never used, as in the scripts.
- IEEE single-precision arithmetic. `Random.value * Length` and the Lerp are computed over exact reals. Rounding at the ends of the intervals in `SelectInterval` is not modelled.
- Exceptions beyond the out-of-range index are not modelled. Null components and a null interruption array are among them.
- The scripts contain no loudness hysteresis, debounce timers, clapping envelopes, light brightening or cancellation of a pending interruption; none of that is modelled.
- `Stage.StageManager.constructor`: the static `userPerforming` (StageManager.cs:11) is held as a field of each stage, because Dafny classes have no mutable static fields. The constructor takes its current value; other scripts that write the static are not modelled.
