/**
 Block times measured over several waits: vTaskSetTimeOutState, vTaskInternalSetTimeOutState
 and xTaskCheckForTimeOut.  The overflow counter itself wraps at N.
 */
module TimeOuts {
  import opened Clock

  // What the kernel can read of the absolute time t.
  datatype Reading = Reading(tickCount: nat, numOfOverflows: nat)

  ghost function At(t: nat, M: nat, N: nat): Reading
    requires M > 0 && N > 0
  {
    Reading(t % M, (t / M) % N)
  }

  // The verdict of one check, with the block time that is left and the new reference time.
  datatype Outcome = Outcome(timedOut: bool, wait: nat, since: Reading)

  function Check(now: Reading, since: Reading, wait: nat, M: nat): Outcome
    requires now.tickCount < M && since.tickCount < M
  {
    var elapsed := Minus(now.tickCount, since.tickCount, M);
    if wait == M - 1 then Outcome(false, wait, since)
    else if now.numOfOverflows != since.numOfOverflows && now.tickCount >= since.tickCount then
      Outcome(true, 0, since)
    else if elapsed < wait then Outcome(false, wait - elapsed, now)
    else Outcome(true, 0, since)
  }

  // TimeOut_t
  class TimeOut {
    var xOverflowCount: nat
    var xTimeOnEntering: nat

    ghost function Since(): Reading
      reads this
    {
      Reading(xTimeOnEntering, xOverflowCount)
    }

    method SetTimeOutState(now: Reading)
      modifies this
      ensures Since() == now
    {
      xOverflowCount := now.numOfOverflows;
      xTimeOnEntering := now.tickCount;
    }

    // An aborted delay counts as a time out and clears the flag of the running task.
    method CheckForTimeOut(now: Reading, delayAborted: bool, ticksToWait: nat, M: nat)
      returns (timedOut: bool, wait: nat, stillAborted: bool)
      requires now.tickCount < M && xTimeOnEntering < M
      modifies this
      ensures !stillAborted
      ensures if delayAborted then timedOut && wait == ticksToWait && Since() == old(Since())
              else Outcome(timedOut, wait, Since()) == Check(now, old(Since()), ticksToWait, M)
    {
      wait, stillAborted := ticksToWait, false;
      var elapsed := Minus(now.tickCount, xTimeOnEntering, M);
      if delayAborted {
        timedOut := true;
      } else if wait == M - 1 {
        timedOut := false;
      } else if now.numOfOverflows != xOverflowCount && now.tickCount >= xTimeOnEntering {
        timedOut := true;
        wait := 0;
      } else if elapsed < wait {
        wait := wait - elapsed;
        SetTimeOutState(now);
        timedOut := false;
      } else {
        wait := 0;
        timedOut := true;
      }
    }
  }

  // Successive checks at absolute times, up to and including the first that times out.
  ghost function Checks(since: Reading, wait: nat, times: seq<nat>, M: nat, N: nat): (o: Outcome)
    requires M > 0 && N > 0 && since.tickCount < M
    ensures o.since.tickCount < M
    decreases |times|
  {
    if times == [] then Outcome(false, wait, since)
    else
      var o := Check(At(times[0], M, N), since, wait, M);
      if o.timedOut then o else Checks(o.since, o.wait, times[1..], M, N)
  }

  // No check comes before the previous one or a full turn of the counter after it.
  ghost predicate Regular(start: nat, times: seq<nat>, M: nat)
    decreases |times|
  {
    times != [] ==> start <= times[0] < start + M && Regular(times[0], times[1..], M)
  }

  // One check less than a turn later measures exactly, whether or not the counter wrapped.
  lemma CheckIsExact(t: nat, d: nat, wait: nat, M: nat, N: nat)
    requires d < M && N >= 2 && wait < M - 1
    ensures Check(At(t + d, M, N), At(t, M, N), wait, M) ==
            if d < wait then Outcome(false, wait - d, At(t + d, M, N)) else Outcome(true, 0, At(t, M, N))
  {
    Later(t, d, M);
  }

  // Telescoping: until it times out, the time spent and the time left add up to the block
  // time asked for; and it times out at the first check that is made at or after its end.
  lemma {:induction false} ChecksTelescope(start: nat, wait: nat, times: seq<nat>, M: nat, N: nat)
    requires M > 0 && N >= 2 && wait < M - 1 && Regular(start, times, M)
    ensures var o := Checks(At(start, M, N), wait, times, M, N);
            var last := if times == [] then start else times[|times| - 1];
            && (o.timedOut <==> exists i :: 0 <= i < |times| && times[i] >= start + wait)
            && (o.timedOut ==> o.wait == 0)
            && (!o.timedOut ==> o.wait + (last - start) == wait && o.since == At(last, M, N))
    decreases |times|
  {
    if times != [] {
      var t, rest := times[0], times[1..];
      CheckIsExact(start, t - start, wait, M, N);
      if t < start + wait {
        ChecksTelescope(t, wait - (t - start), rest, M, N);
        if exists i :: 0 <= i < |rest| && rest[i] >= start + wait {
          var i :| 0 <= i < |rest| && rest[i] >= start + wait;
          assert times[i + 1] >= start + wait;
        }
        if exists i :: 0 <= i < |times| && times[i] >= start + wait {
          var i :| 0 <= i < |times| && times[i] >= start + wait;
          assert rest[i - 1] >= start + wait;
        }
      }
    }
  }

  // A block time of portMAX_DELAY never times out.
  lemma {:induction false} ForeverNeverEnds(since: Reading, times: seq<nat>, M: nat, N: nat)
    requires M > 0 && N > 0 && since.tickCount < M
    ensures Checks(since, M - 1, times, M, N) == Outcome(false, M - 1, since)
    decreases |times|
  {
    if times != [] {
      ForeverNeverEnds(since, times[1..], M, N);
    }
  }

  // Without the bound on the gap the verdict can be wrong, and only in one way: at least
  // one whole turn went by, the remainder is within the block time, and either the
  // remainder itself crosses a wrap or the overflow counter came round to the same value.
  lemma VerdictIsRightUnless(t: nat, d: nat, wait: nat, M: nat, N: nat)
    requires M > 0 && N >= 2 && wait < M - 1
    ensures (Check(At(t + d, M, N), At(t, M, N), wait, M).timedOut <==> d >= wait) <==>
            !(d >= M && d % M < wait &&
              (t % M + d % M >= M || ((t + d) / M) % N == (t / M) % N))
  {
    EpochAndTick(d, M);
    Turns(t, d, M);
    Later(t, d % M, M);
    if d < M {
      Unique(M, 0, d, d);
    } else {
      assert d / M >= 1;
    }
  }

  // For instance 16-bit ticks, entered one tick before the wrap: 65537 ticks later a
  // block time of 5 ticks is still taken for unexpired.
  lemma MissedTurn()
    ensures !Check(At(65535 + 65537, 65536, 256), At(65535, 65536, 256), 5, 65536).timedOut
  {
  }
}
