/**
 xTaskDelayUntil: deciding from wrapping counters whether a periodic task still has to wait.
 */
module DelaysUntil {
  import opened Clock

  // The previous wake time was P, the next one is P + increment and it is N now, less than a
  // turn of the counter after P.  The task waits if and only if the next wake time is still
  // ahead, for exactly the time to it; the wake times follow each other without drift.
  method DelayUntil(pxPreviousWakeTime: nat, xTimeIncrement: nat, xConstTickCount: nat, M: nat,
                    ghost P: nat, ghost N: nat)
    returns (xShouldDelay: bool, xTimeToWake: nat, xTicksToWait: nat)
    requires 0 < xTimeIncrement < M && P <= N < P + M
    requires pxPreviousWakeTime == Tick(P, M) && xConstTickCount == Tick(N, M)
    ensures xShouldDelay <==> N < P + xTimeIncrement
    ensures xTimeToWake == Tick(P + xTimeIncrement, M)
    ensures xShouldDelay ==> xTicksToWait == P + xTimeIncrement - N
  {
    LaterTick(P, xTimeIncrement, M);
    LaterTick(P, N - P, M);
    EarlierTick(N, P + xTimeIncrement, M);
    xShouldDelay, xTicksToWait := false, 0;
    xTimeToWake := Plus(pxPreviousWakeTime, xTimeIncrement, M);
    if xConstTickCount < pxPreviousWakeTime {
      if xTimeToWake < pxPreviousWakeTime && xTimeToWake > xConstTickCount {
        xShouldDelay := true;
      }
    } else {
      if xTimeToWake < pxPreviousWakeTime || xTimeToWake > xConstTickCount {
        xShouldDelay := true;
      }
    }
    if xShouldDelay {
      LaterTick(N, P + xTimeIncrement - N, M);
      xTicksToWait := Minus(xTimeToWake, xConstTickCount, M);
    }
  }
}
