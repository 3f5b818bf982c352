/** The bound on the pool is reached: for every maximum and every number of callers of balanceThreads. */
module SchedulerPoolBound {
  import opened Machine
  import opened TaskScheduler
  import opened SchedulerTurns
  import opened SchedulerPlaces
  import opened SchedulerThreads
  import opened SchedulerWitnesses

  function Threads(n: nat): seq<Agent> {
    seq(n, _ => THREAD)
  }

  function Callers(pcs: seq<Pc>): seq<Agent> {
    seq(|pcs|, i requires 0 <= i < |pcs| => Agent(pcs[i], Vacant))
  }

  /** One task is queued, `pcs` are the callers of balanceThreads, and `pool` threads were started. */
  function Crowd(m: nat, pcs: seq<Pc>, pool: nat): State {
    Idle(m).(tasks := [FRESH], holdCount := 1, queue := [0], taskCount := 1, poolSize := pool,
             agents := [THREAD] + Callers(pcs) + Threads(pool))
  }

  // ---- never more callers than these

  lemma {:induction false} SumJoins(a: seq<Agent>, b: seq<Agent>, weight: Agent -> int)
    ensures Sum(a + b, weight) == Sum(a, weight) + Sum(b, weight)
  {
    if b == [] {
      assert a + b == a;
    } else {
      var front, last := b[..|b| - 1], b[|b| - 1];
      SumJoins(a, front, weight);
      assert a + b == (a + front) + [last];
      SumAppend(a + front, last, weight);
    }
  }

  lemma {:induction false} AtMostAll(agents: seq<Agent>)
    ensures 0 <= Sum(agents, Balancing()) <= |agents|
  {
    if agents != [] {
      AtMostAll(agents[..|agents| - 1]);
    }
  }

  lemma CrowdBalances(m: nat, pcs: seq<Pc>, pool: nat)
    ensures Sum(Crowd(m, pcs, pool).agents, Balancing()) <= |pcs|
  {
    SumJoins([THREAD] + Callers(pcs), Threads(pool), Balancing());
    SumJoins([THREAD], Callers(pcs), Balancing());
    SumZero([THREAD], Balancing());
    SumZero(Threads(pool), Balancing());
    AtMostAll(Callers(pcs));
  }

  /** With at most `callers` threads in balanceThreads at any time the pool can grow to `size`. */
  ghost predicate CanGrow(s: State, size: nat, callers: nat) {
    exists steps, s' :: RunsWithin(s, steps, s', callers) && s'.poolSize == size
  }

  lemma Before(s: State, step: Step, next: State, size: nat, callers: nat)
    requires Leads(s, step, next) && Sum(s.agents, Balancing()) <= callers && CanGrow(next, size, callers)
    ensures CanGrow(s, size, callers)
  {
    var rest, s' :| RunsWithin(next, rest, s', callers) && s'.poolSize == size;
    assert ([step] + rest)[1..] == rest;
    assert RunsWithin(s, [step] + rest, s', callers);
  }

  // ---- steps of one caller

  lemma CallerAt(m: nat, pcs: seq<Pc>, pool: nat, i: nat, pc: Pc)
    requires i < |pcs|
    ensures Crowd(m, pcs, pool).agents[i + 1] == Agent(pcs[i], Vacant)
    ensures Crowd(m, pcs[i := pc], pool).agents == Crowd(m, pcs, pool).agents[i + 1 := Agent(pc, Vacant)]
    ensures Crowd(m, pcs, pool + 1).agents == Crowd(m, pcs, pool).agents + [THREAD]
  {
  }

  lemma CallerCounts(m: nat, pcs: seq<Pc>, pool: nat, i: nat)
    requires i < |pcs| && pcs[i] == BalanceCount
    ensures Leads(Crowd(m, pcs, pool), Advance(i + 1, Go), Crowd(m, pcs[i := BalanceSize], pool))
  {
    CallerAt(m, pcs, pool, i, BalanceSize);
    WrapSmall(1);
  }

  lemma CallerMeasures(m: nat, pcs: seq<Pc>, pool: nat, i: nat)
    requires i < |pcs| && pcs[i] == BalanceSize && pool < m
    ensures Leads(Crowd(m, pcs, pool), Advance(i + 1, Go), Crowd(m, pcs[i := AddThread], pool))
  {
    CallerAt(m, pcs, pool, i, AddThread);
  }

  lemma CallerAdds(m: nat, pcs: seq<Pc>, pool: nat, i: nat)
    requires i < |pcs| && pcs[i] == AddThread
    ensures Leads(Crowd(m, pcs, pool), Advance(i + 1, Go), Crowd(m, pcs[i := BalanceCount], pool + 1))
  {
    CallerAt(m, pcs, pool, i, BalanceCount);
    CallerAt(m, pcs[i := BalanceCount], pool, i, BalanceCount);
  }

  /** A caller that counts and measures the pool while there is room for one thread is bound to add one. */
  lemma CallerCommits(m: nat, pcs: seq<Pc>, pool: nat, i: nat, size: nat)
    requires i < |pcs| && pcs[i] == BalanceCount && pool < m
    requires CanGrow(Crowd(m, pcs[i := AddThread], pool), size, |pcs|)
    ensures CanGrow(Crowd(m, pcs, pool), size, |pcs|)
  {
    var half := pcs[i := BalanceSize];
    assert half[i := AddThread] == pcs[i := AddThread];
    CallerMeasures(m, half, pool, i);
    CrowdBalances(m, half, pool);
    Before(Crowd(m, half, pool), Advance(i + 1, Go), Crowd(m, pcs[i := AddThread], pool), size, |pcs|);
    CallerCounts(m, pcs, pool, i);
    CrowdBalances(m, pcs, pool);
    Before(Crowd(m, pcs, pool), Advance(i + 1, Go), Crowd(m, half, pool), size, |pcs|);
  }

  lemma CallerFinishes(m: nat, pcs: seq<Pc>, pool: nat, i: nat, size: nat)
    requires i < |pcs| && pcs[i] == AddThread
    requires CanGrow(Crowd(m, pcs[i := BalanceCount], pool + 1), size, |pcs|)
    ensures CanGrow(Crowd(m, pcs, pool), size, |pcs|)
  {
    CallerAdds(m, pcs, pool, i);
    CrowdBalances(m, pcs, pool);
    Before(Crowd(m, pcs, pool), Advance(i + 1, Go), Crowd(m, pcs[i := BalanceCount], pool + 1), size, |pcs|);
  }

  // ---- the run, from its end

  /** `k` callers bound to add a thread, the others back at the count. */
  function Bound(c: nat, k: nat): seq<Pc> {
    seq(c, i => if i < k then AddThread else BalanceCount)
  }

  /** All callers bound to add a thread add it. */
  lemma {:induction false} AllAdd(m: nat, c: nat, k: nat, pool: nat, size: nat)
    requires k <= c && size == pool + k
    ensures CanGrow(Crowd(m, Bound(c, k), pool), size, c)
    decreases k
  {
    if k == 0 {
      CrowdBalances(m, Bound(c, 0), pool);
      var s := Crowd(m, Bound(c, 0), pool);
      assert RunsWithin(s, [], s, c);
    } else {
      AllAdd(m, c, k - 1, pool + 1, size);
      assert Bound(c, k)[k - 1 := BalanceCount] == Bound(c, k - 1);
      CallerFinishes(m, Bound(c, k), pool, k - 1, size);
    }
  }

  /** Before that, all of them see room for one more thread. */
  lemma {:induction false} AllCommit(m: nat, c: nat, k: nat, size: nat)
    requires m >= 1 && k <= c && CanGrow(Crowd(m, Bound(c, c), m - 1), size, c)
    ensures CanGrow(Crowd(m, Bound(c, k), m - 1), size, c)
    decreases c - k
  {
    if k < c {
      AllCommit(m, c, k + 1, size);
      assert Bound(c, k)[k := AddThread] == Bound(c, k + 1);
      CallerCommits(m, Bound(c, k), m - 1, k, size);
    }
  }

  /** Before that, one caller alone fills the pool to one less than its maximum. */
  lemma {:induction false} PoolFills(m: nat, c: nat, pool: nat, size: nat)
    requires c >= 1 && pool < m && CanGrow(Crowd(m, Bound(c, 0), m - 1), size, c)
    ensures CanGrow(Crowd(m, Bound(c, 0), pool), size, c)
    decreases m - pool
  {
    if pool < m - 1 {
      var pcs := Bound(c, 0);
      PoolFills(m, c, pool + 1, size);
      assert pcs[0 := AddThread][0 := BalanceCount] == pcs;
      CallerFinishes(m, pcs[0 := AddThread], pool, 0, size);
      CallerCommits(m, pcs, pool, 0, size);
    }
  }

  /** A further call of start() comes in. */
  lemma CallerArrives(m: nat, c: nat)
    ensures Leads(Crowd(m, Bound(c, 0), 0), Start, Crowd(m, Bound(c + 1, 0), 0))
  {
    assert Crowd(m, Bound(c + 1, 0), 0).agents == Crowd(m, Bound(c, 0), 0).agents + [Agent(BalanceCount, Vacant)];
  }

  lemma {:induction false} CallersArrive(m: nat, c: nat, k: nat, size: nat)
    requires 1 <= k <= c && CanGrow(Crowd(m, Bound(c, 0), 0), size, c)
    ensures CanGrow(Crowd(m, Bound(k, 0), 0), size, c)
    decreases c - k
  {
    if k < c {
      CallersArrive(m, c, k + 1, size);
      CallerArrives(m, k);
      CrowdBalances(m, Bound(k, 0), 0);
      Before(Crowd(m, Bound(k, 0), 0), Start, Crowd(m, Bound(k + 1, 0), 0), size, c);
    }
  }

  lemma AtMostOneBalances(agents: seq<Agent>)
    requires 1 <= |agents| <= 2 && agents[0] == THREAD
    ensures Sum(agents, Balancing()) <= 1
  {
    assert agents == [THREAD] + agents[1..];
    SumJoins([THREAD], agents[1..], Balancing());
    SumZero([THREAD], Balancing());
    AtMostAll(agents[1..]);
  }

  /** The first task is made and its caller, at `pc`, has counted `tasks` tasks. */
  function FirstCall(m: nat, pc: Pc, tasks: nat): State {
    Idle(m).(tasks := [FRESH], holdCount := 1, taskCount := tasks, agents := [THREAD, Agent(pc, Vacant)])
  }

  lemma FirstCallPushes(m: nat, c: nat, size: nat)
    requires c >= 1 && CanGrow(Crowd(m, Bound(1, 0), 0), size, c)
    ensures CanGrow(FirstCall(m, Pushing(0), 1), size, c)
  {
    assert Crowd(m, Bound(1, 0), 0).agents == [THREAD, Agent(BalanceCount, Vacant)];
    AtMostOneBalances(FirstCall(m, Pushing(0), 1).agents);
    Before(FirstCall(m, Pushing(0), 1), Advance(1, Go), Crowd(m, Bound(1, 0), 0), size, c);
  }

  lemma FirstCallCounts(m: nat, c: nat, size: nat)
    requires c >= 1 && CanGrow(FirstCall(m, Pushing(0), 1), size, c)
    ensures CanGrow(FirstCall(m, Counting(0), 0), size, c)
  {
    AtMostOneBalances(FirstCall(m, Counting(0), 0).agents);
    Before(FirstCall(m, Counting(0), 0), Advance(1, Go), FirstCall(m, Pushing(0), 1), size, c);
  }

  lemma FirstCallBegins(m: nat, c: nat, size: nat)
    requires c >= 1 && CanGrow(FirstCall(m, Counting(0), 0), size, c)
    ensures CanGrow(Idle(m), size, c)
  {
    AtMostOneBalances(Idle(m).agents);
    Before(Idle(m), Schedule(Plain), FirstCall(m, Counting(0), 0), size, c);
  }

  /**
   * For every maximum m >= 1 and every c >= 1 there is a run from an initial state, with at most c
   * threads in balanceThreads at any time, in which the pool grows to m - 1 + c threads.
   */
  lemma PoolBoundIsReached(m: nat, c: nat)
    requires m >= 1 && c >= 1
    ensures Init(Idle(m)) && Idle(m).maxThreads == m && CanGrow(Idle(m), m - 1 + c, c)
  {
    var size := m - 1 + c;
    AllAdd(m, c, c, m - 1, size);
    AllCommit(m, c, 0, size);
    PoolFills(m, c, 0, size);
    CallersArrive(m, c, 1, size);
    FirstCallPushes(m, c, size);
    FirstCallCounts(m, c, size);
    FirstCallBegins(m, c, size);
  }
}
