/**
 The tick counter.  Time is an unbounded count of ticks t; the kernel sees it through a
 counter that wraps at M, so that it reads t % M in epoch t / M.  M stays a parameter
 (0x1_0000 or 0x1_0000_0000 in the two configurations of TickType_t).
 */
module Clock {

  // Addition and subtraction of TickType_t values.
  function Plus(a: nat, b: nat, M: nat): (c: nat)
    requires a < M && b < M
    ensures c < M
  {
    if a + b < M then a + b else a + b - M
  }

  function Minus(a: nat, b: nat, M: nat): (c: nat)
    requires a < M && b < M
    ensures c < M
  {
    if a >= b then a - b else a + M - b
  }

  lemma EpochAndTick(t: nat, M: nat)
    requires M > 0
    ensures t == (t / M) * M + t % M && t % M < M
  {
  }

  lemma {:induction false} Unique(M: nat, q: nat, r: nat, t: nat)
    requires r < M && t == q * M + r
    ensures t / M == q && t % M == r
  {
    EpochAndTick(t, M);
    EqualQuotients(M, q, r, t / M, t % M);
  }

  lemma EqualQuotients(M: nat, q: nat, r: nat, p: nat, s: nat)
    requires r < M && s < M && q * M + r == p * M + s
    ensures p == q && r == s
  {
    assert (p - q) * M == p * M - q * M && (q - p) * M == q * M - p * M;
    if p > q {
      Product(p - q, M);
    } else if q > p {
      Product(q - p, M);
    }
  }

  lemma Product(d: nat, M: nat)
    requires d >= 1
    ensures d * M >= M
  {
    assert d * M == (d - 1) * M + M;
    assert (d - 1) * M >= 0;
  }

  // Less than one turn of the counter later the epoch is the same or the next one, and
  // the counter tells which.
  lemma Later(t: nat, d: nat, M: nat)
    requires d < M
    ensures (t + d) % M == Plus(t % M, d, M)
    ensures (t + d) / M == if t % M + d < M then t / M else t / M + 1
    ensures (t + d) / M == t / M <==> t % M <= (t + d) % M
    ensures Minus((t + d) % M, t % M, M) == d
  {
    EpochAndTick(t, M);
    LaterIn(t / M, t % M, d, M, t + d);
  }

  lemma LaterIn(q: nat, r: nat, d: nat, M: nat, u: nat)
    requires d < M && r < M && u == q * M + r + d
    ensures u % M == Plus(r, d, M) && u / M == if r + d < M then q else q + 1
  {
    if r + d < M {
      Unique(M, q, r + d, u);
    } else {
      assert (q + 1) * M == q * M + M;
      Unique(M, q + 1, r + d - M, u);
    }
  }

  // Times compare first by epoch, then by counter.
  lemma Order(a: nat, b: nat, M: nat)
    requires M > 0
    ensures a < b <==> a / M < b / M || (a / M == b / M && a % M < b % M)
  {
    EpochAndTick(a, M);
    EpochAndTick(b, M);
    if a / M < b / M {
      Product(b / M - a / M, M);
      assert (b / M - a / M) * M == (b / M) * M - (a / M) * M;
    } else if b / M < a / M {
      Product(a / M - b / M, M);
      assert (a / M - b / M) * M == (a / M) * M - (b / M) * M;
    }
  }

  // Whole turns do not show on the counter.
  lemma Turns(t: nat, d: nat, M: nat)
    requires M > 0
    ensures (t + d) % M == (t + d % M) % M
    ensures (t + d) / M == (t + d % M) / M + d / M
  {
    EpochAndTick(d, M);
    TurnsIn(t + d % M, d / M, t + d, M);
  }

  lemma TurnsIn(u: nat, turns: nat, v: nat, M: nat)
    requires M > 0 && v == u + turns * M
    ensures v % M == u % M && v / M == u / M + turns
  {
    EpochAndTick(u, M);
    assert (u / M + turns) * M == (u / M) * M + turns * M;
    Unique(M, u / M + turns, u % M, v);
  }

  // ----- The counter as the tick interrupt moves it ---------------------------------------

  // The counter after t ticks: it goes up by one and falls back to 0 when it reaches M.
  function Tick(t: nat, M: nat): (c: nat)
    requires M > 0
    ensures c < M
  {
    if t == 0 then 0 else if Tick(t - 1, M) + 1 == M then 0 else Tick(t - 1, M) + 1
  }

  // How often it has fallen back.
  function Turn(t: nat, M: nat): nat
    requires M > 0
  {
    if t == 0 then 0 else if Tick(t - 1, M) + 1 == M then Turn(t - 1, M) + 1 else Turn(t - 1, M)
  }

  lemma {:induction false} CounterIsModular(t: nat, M: nat)
    requires M > 0
    ensures Tick(t, M) == t % M && Turn(t, M) == t / M
  {
    if t == 0 {
      Unique(M, 0, 0, 0);
    } else {
      CounterIsModular(t - 1, M);
      EpochAndTick(t - 1, M);
      var q := (t - 1) / M;
      if (t - 1) % M + 1 == M {
        assert (q + 1) * M == q * M + M;
        Unique(M, q + 1, 0, t);
      } else {
        Unique(M, q, (t - 1) % M + 1, t);
      }
    }
  }

  // Less than one turn later.
  lemma LaterTick(t: nat, d: nat, M: nat)
    requires d < M
    ensures Tick(t + d, M) == Plus(Tick(t, M), d, M)
    ensures Turn(t + d, M) == if Tick(t, M) + d < M then Turn(t, M) else Turn(t, M) + 1
    ensures Turn(t + d, M) == Turn(t, M) <==> Tick(t, M) <= Tick(t + d, M)
    ensures Minus(Tick(t + d, M), Tick(t, M), M) == d
  {
    CounterIsModular(t, M);
    CounterIsModular(t + d, M);
    Later(t, d, M);
  }

  lemma EarlierTick(a: nat, b: nat, M: nat)
    requires M > 0
    ensures a < b <==> Turn(a, M) < Turn(b, M) || (Turn(a, M) == Turn(b, M) && Tick(a, M) < Tick(b, M))
    ensures a == b <==> Turn(a, M) == Turn(b, M) && Tick(a, M) == Tick(b, M)
  {
    CounterIsModular(a, M);
    CounterIsModular(b, M);
    Order(a, b, M);
    Order(b, a, M);
  }

  // Two times of one turn.
  lemma SameTurn(a: nat, b: nat, M: nat)
    requires M > 0 && Turn(a, M) == Turn(b, M)
    ensures b - a == Tick(b, M) - Tick(a, M)
  {
    CounterIsModular(a, M);
    CounterIsModular(b, M);
    EpochAndTick(a, M);
    EpochAndTick(b, M);
  }
}
