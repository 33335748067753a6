/** AudienceMemberManager: an audience member that, while a performance runs,
    waits a randomly varied delay and then plays one randomly chosen
    interruption sound, over and over. */
module Audience {
  import opened UnityMath
  import opened Interruption

  /** Serialized defaults of the two timing fields. */
  const DefaultDelayTime: real := 10.0
  const DefaultVariability: real := 2.0

  /** The seconds handed to WaitForSeconds on one pass of the loop:
      interruptionDelayTime + Random.Range(-interruptionVariability, interruptionVariability).
      Nothing clamps it at zero. */
  function WaitDuration(delayTime: real, variability: real, draw: real): (w: real)
    requires RandomRange(-variability, variability, draw)
    ensures delayTime - Abs(variability) <= w <= delayTime + Abs(variability)
  {
    delayTime + draw
  }

  /** Both ends of the wait window are reachable draws. */
  lemma WaitWindowTight(delayTime: real, variability: real)
    ensures RandomRange(-variability, variability, -Abs(variability))
    ensures RandomRange(-variability, variability, Abs(variability))
    ensures WaitDuration(delayTime, variability, -Abs(variability)) == delayTime - Abs(variability)
    ensures WaitDuration(delayTime, variability, Abs(variability)) == delayTime + Abs(variability)
  {
  }

  /** With the serialized defaults every wait lies in [8, 12] seconds. */
  lemma DefaultWaitWindow(draw: real)
    requires RandomRange(-DefaultVariability, DefaultVariability, draw)
    ensures 8.0 <= WaitDuration(DefaultDelayTime, DefaultVariability, draw) <= 12.0
  {
  }

  /** A negative wait is possible exactly when the variability exceeds the delay. */
  lemma NegativeWaitIff(delayTime: real, variability: real)
    ensures (exists draw :: RandomRange(-variability, variability, draw) && WaitDuration(delayTime, variability, draw) < 0.0)
            <==> Abs(variability) > delayTime
  {
    if Abs(variability) > delayTime {
      var draw := -Abs(variability);
      assert RandomRange(-variability, variability, draw) && WaitDuration(delayTime, variability, draw) < 0.0;
    }
  }

  /** Mathf.CeilToInt(Random.value * audienceInterruptions.Length). */
  function InterruptionNumber(rand: real, n: nat): (k: int)
    requires RandomValue(rand)
    ensures 0 <= k <= n
    ensures k == 0 <==> rand == 0.0 || n == 0
  {
    ScaleBetween(n as real, rand);
    assert rand > 0.0 && n > 0 ==> Scale(n as real, rand) > 0.0 by {
      if rand > 0.0 && n > 0 {
        ScalePositive(n as real, rand);
      }
    }
    CeilToInt(Scale(n as real, rand))
  }

  /** Outcome of indexing the interruption array with InterruptionNumber - 1:
      a valid index, or the index that raises IndexOutOfRangeException. */
  datatype Selection = Selected(index: nat) | OutOfRange(badIndex: int)

  function SelectInterruption(rand: real, n: nat): (s: Selection)
    requires RandomValue(rand)
    ensures s.Selected? <==> rand > 0.0 && n > 0
    ensures s.Selected? ==> s.index < n
    ensures s.OutOfRange? ==> s.badIndex == -1
  {
    var i := InterruptionNumber(rand, n) - 1;
    if 0 <= i < n then Selected(i) else OutOfRange(i)
  }

  /** Index i is chosen exactly when the draw falls in (i/n, (i+1)/n]: every
      index owns an interval of width 1/n, so a uniform draw picks uniformly. */
  lemma SelectInterval(rand: real, n: nat, i: nat)
    requires RandomValue(rand) && i < n
    ensures SelectInterruption(rand, n) == Selected(i)
            <==> (i as real) / (n as real) < rand <= ((i + 1) as real) / (n as real)
  {
    var x := Scale(n as real, rand);
    ScaleBetween(n as real, rand);
    DivisionOrder(i as real, rand, n as real);
    DivisionOrder((i + 1) as real, rand, n as real);
    if i as real < x <= (i + 1) as real {
      CeilToIntUnique(x, i + 1);
    }
  }

  /** For a positive n, comparing y against a / n is comparing n * y against a. */
  lemma DivisionOrder(a: real, y: real, n: real)
    requires n > 0.0
    ensures a / n < y <==> a < Scale(n, y)
    ensures y <= a / n <==> Scale(n, y) <= a
  {
    var q := a / n;
    assert a == Scale(n, q);
    if q < y {
      ScalePositive(n, y - q);
      assert Scale(n, y - q) == Scale(n, y) - Scale(n, q);
    } else {
      ScaleBetween(n, 0.0);
      if q > y {
        ScalePositive(n, q - y);
        assert Scale(n, q - y) == Scale(n, q) - Scale(n, y);
      }
    }
  }

  class AudienceMemberManager {
    /** The interruptions fetched once at start-up; no method writes this field. */
    var audienceInterruptions: seq<AudienceInterruption>
    var inPerformance: bool
    var interruptionDelayTime: real
    var interruptionVariability: real
    /** Indices of the interruptions whose noise was passed to PlayOneShot, in order. */
    ghost var played: seq<nat>
    /** The noises passed to PlayOneShot, in order. */
    ghost var noises: seq<AudioClip>

    /** Creation with the serialized timings, followed by Start(): the
        interruption array is fetched once. */
    constructor (interruptions: seq<AudienceInterruption>, delayTime: real, variability: real)
      ensures audienceInterruptions == interruptions && !inPerformance
      ensures interruptionDelayTime == delayTime && interruptionVariability == variability
      ensures played == [] && noises == []
    {
      audienceInterruptions := interruptions;
      inPerformance := false;
      interruptionDelayTime := delayTime;
      interruptionVariability := variability;
      played := [];
      noises := [];
    }

    /** Sets the flag and launches a new RunAudienceMember coroutine, which runs
        at once up to its first wait. Routines launched earlier keep running. */
    method StartAudienceMember(rangeDraw: real) returns (routine: RunAudienceMember)
      requires RandomRange(-interruptionVariability, interruptionVariability, rangeDraw)
      modifies this`inPerformance
      ensures inPerformance
      ensures fresh(routine) && routine.member == this
      ensures routine.state == Waiting(WaitDuration(interruptionDelayTime, interruptionVariability, rangeDraw))
    {
      inPerformance := true;
      routine := new RunAudienceMember(this, rangeDraw);
    }

    /** Clears the flag. The StopCoroutine call is handed a brand-new enumerator,
        so it stops nothing: no routine is touched. */
    method StopAudienceMember()
      modifies this`inPerformance
      ensures !inPerformance
    {
      inPerformance := false;
    }
  }

  /** Where one RunAudienceMember coroutine stands: suspended in WaitForSeconds
      for the given seconds, finished because the loop test failed, or ended by
      the IndexOutOfRangeException raised for the given index. */
  datatype RoutineState = Waiting(seconds: real) | Exited | Faulted(index: int)

  /** One running instance of the RunAudienceMember coroutine. */
  class RunAudienceMember {
    const member: AudienceMemberManager
    var state: RoutineState

    /** StartCoroutine runs the body synchronously up to its first yield: the
        loop test, then the wait. */
    constructor (m: AudienceMemberManager, rangeDraw: real)
      requires RandomRange(-m.interruptionVariability, m.interruptionVariability, rangeDraw)
      ensures member == m
      ensures m.inPerformance ==> state == Waiting(WaitDuration(m.interruptionDelayTime, m.interruptionVariability, rangeDraw))
      ensures !m.inPerformance ==> state == Exited
    {
      member := m;
      if m.inPerformance {
        state := Waiting(WaitDuration(m.interruptionDelayTime, m.interruptionVariability, rangeDraw));
      } else {
        state := Exited;
      }
    }

    /** The resumption after a wait: one interruption is chosen and played
        without looking at inPerformance again; then the loop test decides
        between the next wait and the end of the coroutine. */
    method Resume(valueDraw: real, rangeDraw: real)
      requires state.Waiting?
      requires RandomValue(valueDraw)
      requires RandomRange(-member.interruptionVariability, member.interruptionVariability, rangeDraw)
      modifies this`state, member`played, member`noises
      ensures SelectInterruption(valueDraw, |member.audienceInterruptions|).OutOfRange? ==>
                state == Faulted(-1) && member.played == old(member.played) && member.noises == old(member.noises)
      ensures SelectInterruption(valueDraw, |member.audienceInterruptions|).Selected? ==>
                && member.played == old(member.played) + [SelectInterruption(valueDraw, |member.audienceInterruptions|).index]
                && member.noises == old(member.noises) + [member.audienceInterruptions[SelectInterruption(valueDraw, |member.audienceInterruptions|).index].noise]
                && state == if member.inPerformance
                            then Waiting(WaitDuration(member.interruptionDelayTime, member.interruptionVariability, rangeDraw))
                            else Exited
    {
      var selection := SelectInterruption(valueDraw, |member.audienceInterruptions|);
      match selection
      case OutOfRange(i) =>
        state := Faulted(i);
      case Selected(i) =>
        member.played := member.played + [i];
        member.noises := member.noises + [member.audienceInterruptions[i].noise];
        if member.inPerformance {
          state := Waiting(WaitDuration(member.interruptionDelayTime, member.interruptionVariability, rangeDraw));
        } else {
          state := Exited;
        }
    }
  }

  /** A stop that arrives while the routine is waiting does not prevent the
      interruption due at the end of that wait: exactly one more is played
      (or the out-of-range fault is raised), and only then does the routine end. */
  method StopDuringWait(interruptions: seq<AudienceInterruption>, firstDraw: real, valueDraw: real, nextDraw: real)
    returns (state: RoutineState, ghost played: seq<nat>)
    requires RandomRange(-DefaultVariability, DefaultVariability, firstDraw)
    requires RandomValue(valueDraw)
    requires RandomRange(-DefaultVariability, DefaultVariability, nextDraw)
    ensures valueDraw > 0.0 && |interruptions| > 0 ==> state == Exited
    ensures valueDraw == 0.0 || |interruptions| == 0 ==> state == Faulted(-1)
    ensures valueDraw > 0.0 && |interruptions| > 0 ==> |played| == 1 && played[0] < |interruptions|
    ensures valueDraw == 0.0 || |interruptions| == 0 ==> played == []
  {
    var member := new AudienceMemberManager(interruptions, DefaultDelayTime, DefaultVariability);
    var routine := member.StartAudienceMember(firstDraw);
    member.StopAudienceMember();
    routine.Resume(valueDraw, nextDraw);
    state, played := routine.state, member.played;
  }

  /** Two starts launch two coroutines, and a stop cancels neither: after both
      resume, two interruptions have been played. */
  method RestartOverlaps(interruptions: seq<AudienceInterruption>, draw1: real, draw2: real, value1: real, value2: real)
    returns (first: RoutineState, second: RoutineState, ghost played: seq<nat>)
    requires RandomRange(-DefaultVariability, DefaultVariability, draw1)
    requires RandomRange(-DefaultVariability, DefaultVariability, draw2)
    requires RandomValue(value1) && RandomValue(value2)
    requires value1 > 0.0 && value2 > 0.0 && |interruptions| > 0
    ensures first == Exited && second == Exited
    ensures |played| == 2 && played[0] < |interruptions| && played[1] < |interruptions|
  {
    var member := new AudienceMemberManager(interruptions, DefaultDelayTime, DefaultVariability);
    var routine1 := member.StartAudienceMember(draw1);
    var routine2 := member.StartAudienceMember(draw2);
    member.StopAudienceMember();
    routine1.Resume(value1, draw1);
    routine2.Resume(value2, draw2);
    first, second, played := routine1.state, routine2.state, member.played;
  }

  /** A member whose serialized variability exceeds its delay can be handed a
      negative wait: nothing clamps the duration at zero. */
  method NegativeWaitMember(interruptions: seq<AudienceInterruption>, delayTime: real, variability: real)
    returns (state: RoutineState)
    requires Abs(variability) > delayTime
    ensures state.Waiting? && state.seconds < 0.0
    ensures state.seconds == delayTime - Abs(variability)
  {
    var member := new AudienceMemberManager(interruptions, delayTime, variability);
    WaitWindowTight(delayTime, variability);
    var routine := member.StartAudienceMember(-Abs(variability));
    state := routine.state;
  }
}
