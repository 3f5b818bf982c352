/** What holds of every run of a program that uses promises. */
module PromiseTheorems {
  import opened Promises
  import opened PromiseInvariant
  import opened PromiseSteps

  // ---- what one step may do

  /** A task that serves entry `i` of promise `p`. */
  predicate Serves(job: Job, p: Pid, i: nat) {
    (job.Fulfilled? || job.Declined? || job.Propagate?) && job.parent == p && job.index == i
  }

  /** Only history, places and the queue of tasks differ; tasks may have gone. */
  predicate Alike(s: Realm, m: Realm, d: Pid)
    requires Has(s, d)
  {
    && Has(m, d) && m.nodes[d].state == s.nodes[d].state && m.nodes[d].subs == s.nodes[d].subs
    && m.nodes[d].origin == s.nodes[d].origin && m.nodes[d].broadcasts == s.nodes[d].broadcasts
    && m.nodes[d].waited == s.nodes[d].waited
  }

  ghost predicate Prepared(s: Realm, m: Realm) {
    && |m.nodes| == |s.nodes| && m.next == s.next
    && (forall d {:trigger m.nodes[d]} {:trigger s.nodes[d]} :: 0 <= d < |s.nodes| ==> Alike(s, m, d))
    && (forall id {:trigger id in m.jobs} :: id in m.jobs ==> JobKept(m, s, id) && id < s.next)
  }

  predicate Grows(s: Realm, s': Realm, d: Pid, settled: seq<Pid>)
    requires Has(s, d)
  {
    && Has(s', d) && s'.nodes[d].origin == s.nodes[d].origin && s.nodes[d].subs <= s'.nodes[d].subs
    && if d in settled then
         s.nodes[d].state.Pending? && !s'.nodes[d].state.Pending? && s'.nodes[d].waited == s.nodes[d].subs
       else s'.nodes[d].state == s.nodes[d].state && s'.nodes[d].waited == s.nodes[d].waited
  }

  /** A task after a step: an old one, or a new one that serves an entry of a promise settled in it. */
  predicate JobFits(s: Realm, s': Realm, id: nat, settled: seq<Pid>)
    requires id in s'.jobs
  {
    var job := s'.jobs[id];
    if id < s.next then id in s.jobs && job == s.jobs[id]
    else
      job.Fulfilled? || job.Declined? || job.Propagate? ==>
        && job.parent in settled && Has(s, job.parent) && Has(s', job.parent)
        && id == s.next + job.index && job.index < |s.nodes[job.parent].subs|
        && Chosen(s.nodes[job.parent].subs, s'.nodes[job.parent].state, job.index)
  }

  predicate IsServed(s: Realm, s': Realm, p: Pid, i: nat)
    requires Has(s, p) && Has(s', p) && i < |s.nodes[p].subs|
  {
    Chosen(s.nodes[p].subs, s'.nodes[p].state, i) ==>
      s.next + i in s'.jobs && Serves(s'.jobs[s.next + i], p, i)
  }

  /** A step settles the promises in `settled` and serves exactly their chosen entries. */
  ghost predicate Shape(s: Realm, s': Realm, settled: seq<Pid>) {
    && |settled| <= 1 && |s.nodes| <= |s'.nodes| && s.next <= s'.next
    && (forall d {:trigger Grows(s, s', d, settled)} :: 0 <= d < |s.nodes| ==> Grows(s, s', d, settled))
    && (forall d {:trigger s'.nodes[d]} :: |s.nodes| <= d < |s'.nodes| ==> s'.nodes[d].state.Pending?)
    && (forall id {:trigger JobFits(s, s', id, settled)} :: id in s'.jobs ==> JobFits(s, s', id, settled))
    && (forall p, i {:trigger IsServed(s, s', p, i)} ::
          p in settled && Has(s, p) && Has(s', p) && 0 <= i < |s.nodes[p].subs| ==> IsServed(s, s', p, i))
  }

  lemma SettleShape(s: Realm, m: Realm, p: Pid, state: State)
    requires Prepared(s, m) && Has(s, p) && s.nodes[p].state.Pending? && !state.Pending?
    ensures Shape(s, Settle(m, p, state), [p])
  {
    var s' := Settle(m, p, state);
    SettleBecomes(m, p, state);
    forall d | 0 <= d < |s.nodes|
      ensures Grows(s, s', d, [p])
    {
      assert Alike(s, m, d) && Alike(s, m, p) && NodeBecomes(m, p, state, s', d);
    }
    forall id | id in s'.jobs
      ensures JobFits(s, s', id, [p])
    {
      SettleJobFits(s, m, p, state, s', id);
    }
    forall i | 0 <= i < |s.nodes[p].subs|
      ensures Has(s', p) && IsServed(s, s', p, i)
    {
      SettleServes(s, m, p, state, s', i);
    }
  }

  lemma SettleJobFits(s: Realm, m: Realm, p: Pid, state: State, s': Realm, id: nat)
    requires Prepared(s, m) && Has(s, p) && Has(m, p) && !state.Pending? && Becomes(m, p, state, s') && id in s'.jobs
    ensures JobFits(s, s', id, [p])
  {
    assert Alike(s, m, p) && NodeBecomes(m, p, state, s', p);
    if id in m.jobs {
      assert JobKept(m, s, id) && OldJobKept(m, s', id);
    } else {
      assert JobAdded(m, p, state, s', id - m.next);
    }
  }

  lemma SettleServes(s: Realm, m: Realm, p: Pid, state: State, s': Realm, i: nat)
    requires Prepared(s, m) && Has(s, p) && Has(m, p) && !state.Pending? && Becomes(m, p, state, s')
    requires i < |s.nodes[p].subs|
    ensures Has(s', p) && IsServed(s, s', p, i)
  {
    assert Alike(s, m, p) && NodeBecomes(m, p, state, s', p);
    if Chosen(s.nodes[p].subs, state, i) {
      assert JobAdded(m, p, state, s', i);
    }
  }

  /** What a call of broadcastResolve settles. */
  function Settles(s: Realm, p: Pid, v: Value): seq<Pid>
    requires Has(s, p)
  {
    if s.nodes[p].state.Pending? && !v.Ref? then [p] else []
  }

  lemma ResolveShape(s: Realm, m: Realm, p: Pid, v: Value)
    requires Prepared(s, m) && Has(s, p) && Known(m, v)
    ensures Shape(s, Resolve(m, p, v), Settles(s, p, v))
  {
    assert Alike(s, m, p);
    if s.nodes[p].state.Pending? && !v.Ref? {
      SettleShape(s, m, p, Resolved(v));
    } else {
      ResolveQuietly(s, m, p, v);
    }
  }

  lemma ResolveQuietly(s: Realm, m: Realm, p: Pid, v: Value)
    requires Prepared(s, m) && Has(s, p) && Has(m, p) && Known(m, v) && (v.Ref? || !m.nodes[p].state.Pending?)
    ensures Shape(s, Resolve(m, p, v), [])
  {
    var s' := Resolve(m, p, v);
    forall d | 0 <= d < |s.nodes|
      ensures Grows(s, s', d, [])
    {
      assert Alike(s, m, d);
    }
    forall id | id in s'.jobs
      ensures JobFits(s, s', id, [])
    {
      assert id in m.jobs ==> JobKept(m, s, id);
    }
  }

  lemma DeclineShape(s: Realm, m: Realm, p: Pid, reason: Value)
    requires Prepared(s, m) && Has(s, p) && Has(m, p)
    ensures Shape(s, Decline(m, p, reason), if s.nodes[p].state.Pending? then [p] else [])
  {
    assert Alike(s, m, p);
    if s.nodes[p].state.Pending? {
      SettleShape(s, m, p, Rejected(reason));
    } else {
      StillShape(s, m);
    }
  }

  lemma StillShape(s: Realm, m: Realm)
    requires Prepared(s, m)
    ensures Shape(s, m, [])
  {
    forall d | 0 <= d < |s.nodes|
      ensures Grows(s, m, d, [])
    {
      assert Alike(s, m, d);
    }
    forall id | id in m.jobs
      ensures JobFits(s, m, id, [])
    {
      assert JobKept(m, s, id);
    }
  }

  lemma GrowthShape(s: Realm, s': Realm)
    requires |s.nodes| <= |s'.nodes| && s.next <= s'.next && forall id :: id in s.jobs ==> id < s.next
    requires forall d :: 0 <= d < |s.nodes| ==> Grows(s, s', d, [])
    requires forall d :: |s.nodes| <= d < |s'.nodes| ==> s'.nodes[d].state.Pending?
    requires forall id :: id in s'.jobs ==>
               (id in s.jobs && s'.jobs[id] == s.jobs[id]) || (id >= s.next && (s'.jobs[id].Execute? || s'.jobs[id].Poll?))
    ensures Shape(s, s', [])
  {
    forall id | id in s'.jobs
      ensures JobFits(s, s', id, [])
    {
    }
  }

  lemma DequeuePrepares(s: Realm, id: nat)
    requires Ok(s, {}) && id in s.jobs && JobValid(s, s.jobs[id])
    ensures Prepared(s, Dequeue(s, id))
  {
    var m := Dequeue(s, id);
    forall d | 0 <= d < |s.nodes|
      ensures Alike(s, m, d)
    {
    }
    forall k | k in m.jobs
      ensures JobKept(m, s, k) && k < s.next
    {
      assert JobOk(s, k);
    }
  }

  lemma RecordPrepares(s: Realm, m: Realm, c: Pid, calls: seq<Call>, fate: Fate)
    requires Prepared(s, m) && Has(m, c)
    ensures Prepared(s, With(m, c, m.nodes[c].(calls := calls, fate := fate)))
  {
    var m' := With(m, c, m.nodes[c].(calls := calls, fate := fate));
    forall d | 0 <= d < |s.nodes|
      ensures Alike(s, m', d)
    {
      assert Alike(s, m, d);
    }
    forall k | k in m'.jobs
      ensures JobKept(m', s, k) && k < s.next
    {
      assert JobKept(m, s, k);
    }
  }

  lemma DeliverShape(s: Realm, m: Realm, c: Pid, v: Value)
    requires Prepared(s, m) && Has(m, c) && Known(m, v)
    ensures Shape(s, Deliver(m, c, v), Settles(s, c, v))
  {
    RecordPrepares(s, m, c, m.nodes[c].calls, Takes(v));
    ResolveShape(s, SetFate(m, c, Takes(v)), c, v);
  }

  lemma RefuseShape(s: Realm, m: Realm, c: Pid, e: Value)
    requires Prepared(s, m) && Has(m, c)
    ensures Shape(s, Refuse(m, c, e), if s.nodes[c].state.Pending? then [c] else [])
  {
    RecordPrepares(s, m, c, m.nodes[c].calls, Fails(e));
    DeclineShape(s, SetFate(m, c, Fails(e)), c, e);
  }

  lemma CalledShape(s: Realm, m: Realm, c: Pid, call: Call)
    requires Prepared(s, m) && Has(m, c)
    ensures Prepared(s, LogCall(m, c, call))
  {
    RecordPrepares(s, m, c, m.nodes[c].calls + [call], m.nodes[c].fate);
  }

  lemma LostShape(s: Realm, m: Realm, c: Pid)
    requires Prepared(s, m) && Has(m, c)
    ensures Shape(s, SetFate(m, c, Lost), [])
  {
    RecordPrepares(s, m, c, m.nodes[c].calls, Lost);
    StillShape(s, SetFate(m, c, Lost));
  }

  lemma OnFulfilledShape(s: Realm, m: Realm, c: Pid, reject: bool, arg: Value, first: Reply, second: Reply)
    returns (settled: seq<Pid>)
    requires Prepared(s, m) && Has(m, c) && KnownReply(m, first) && KnownReply(m, second)
    ensures Shape(s, OnFulfilled(m, c, reject, arg, first, second), settled)
  {
    var called := LogCall(m, c, Fulfil(arg, first));
    CalledShape(s, m, c, Fulfil(arg, first));
    var thrown := Thrown(c, first);
    if thrown == [] {
      DeliverShape(s, called, c, first.value);
      settled := Settles(s, c, first.value);
    } else if !reject {
      RefuseShape(s, called, c, thrown[0]);
      settled := if s.nodes[c].state.Pending? then [c] else [];
    } else {
      CalledShape(s, called, c, Reject(thrown[0], second));
      var again := LogCall(called, c, Reject(thrown[0], second));
      if Thrown(c, second) == [] {
        DeliverShape(s, again, c, second.value);
        settled := Settles(s, c, second.value);
      } else {
        LostShape(s, again, c);
        settled := [];
      }
    }
  }

  lemma OnDeclinedShape(s: Realm, m: Realm, c: Pid, arg: Value, reply: Reply) returns (settled: seq<Pid>)
    requires Prepared(s, m) && Has(m, c) && KnownReply(m, reply)
    ensures Shape(s, OnDeclined(m, c, arg, reply), settled)
  {
    var called := LogCall(m, c, Reject(arg, reply));
    CalledShape(s, m, c, Reject(arg, reply));
    var thrown := Thrown(c, reply);
    if thrown == [] {
      DeliverShape(s, called, c, reply.value);
      settled := Settles(s, c, reply.value);
    } else if CarriesProperty(thrown[0]) {
      RefuseShape(s, called, c, thrown[0]);
      settled := if s.nodes[c].state.Pending? then [c] else [];
    } else {
      LostShape(s, called, c);
      settled := [];
    }
  }

  lemma OnPollShape(s: Realm, m: Realm, c: Pid) returns (settled: seq<Pid>)
    requires Prepared(s, m) && Has(m, c) && m.nodes[c].origin.AllOf?
    ensures Shape(s, OnPoll(m, c), settled)
  {
    match Decide(m, m.nodes[c].origin.items)
    case Again =>
      var s' := OnPoll(m, c);
      forall d | 0 <= d < |s.nodes|
        ensures Grows(s, s', d, [])
      {
        assert Alike(s, m, d);
      }
      forall id | id in s'.jobs
        ensures JobFits(s, s', id, [])
      {
        assert id in m.jobs ==> JobKept(m, s, id);
      }
      settled := [];
    case Values(values) =>
      DeliverShape(s, m, c, List(values));
      settled := Settles(s, c, List(values));
    case Reason(e) =>
      RefuseShape(s, m, c, e);
      settled := if s.nodes[c].state.Pending? then [c] else [];
  }

  /** The trailing undefined of an adoption finds its promise settled. */
  lemma OnAdoptedShape(s: Realm, m: Realm, c: Pid, v: Value) returns (settled: seq<Pid>)
    requires Prepared(s, m) && Has(m, c) && !v.Ref?
    ensures Shape(s, OnAdopted(m, c, v), settled)
  {
    assert Alike(s, m, c);
    ResolveShape(s, m, c, v);
    settled := Settles(s, c, v);
    assert OnAdopted(m, c, v) == Resolve(m, c, v);
  }

  lemma OnAdoptedRejectionShape(s: Realm, m: Realm, c: Pid, e: Value) returns (settled: seq<Pid>)
    requires Prepared(s, m) && Has(m, c)
    ensures Shape(s, OnAdoptedRejection(m, c, e), settled)
  {
    assert Alike(s, m, c);
    DeclineShape(s, m, c, e);
    settled := if s.nodes[c].state.Pending? then [c] else [];
    assert OnAdoptedRejection(m, c, e) == Decline(m, c, e);
  }

  lemma RunShape(s: Realm, id: nat, first: Reply, second: Reply) returns (settled: seq<Pid>)
    requires Ok(s, {}) && Enabled(s, RunTask(id, first, second))
    ensures Shape(s, RunJob(s, id, first, second), settled)
  {
    var job, rest := s.jobs[id], Dequeue(s, id);
    assert JobOk(s, id);
    var c := Target(s, job);
    DequeuePrepares(s, id);
    match job
    case Fulfilled(p, i, v) =>
      assert NodeOk(s, p, {});
      match s.nodes[p].subs[i] {
        case Adopt(_) => settled := OnAdoptedShape(s, rest, c, v);
        case Then(_, reject, _) => settled := OnFulfilledShape(s, rest, c, reject, v, first, second);
      }
    case Declined(p, i, e) =>
      match s.nodes[p].subs[i] {
        case Adopt(_) => settled := OnAdoptedRejectionShape(s, rest, c, e);
        case Then(_, _, _) => settled := OnDeclinedShape(s, rest, c, e, first);
      }
    case Propagate(_, _, e) =>
      RefuseShape(s, rest, c, e);
      settled := if s.nodes[c].state.Pending? then [c] else [];
    case ResolveWith(_, _, v) =>
      ResolveShape(s, rest, c, v);
      settled := Settles(s, c, v);
    case RejectWith(_, _, e) =>
      DeclineShape(s, rest, c, e);
      settled := if s.nodes[c].state.Pending? then [c] else [];
    case Execute(_) =>
      var Given(v, ok) := s.nodes[c].origin;
      if ok {
        DeliverShape(s, rest, c, v);
        settled := Settles(s, c, v);
      } else {
        RefuseShape(s, rest, c, v);
        settled := if s.nodes[c].state.Pending? then [c] else [];
      }
    case Poll(_) => settled := OnPollShape(s, rest, c);
  }

  lemma JobsBelowNext(s: Realm)
    requires Ok(s, {})
    ensures forall id :: id in s.jobs ==> id < s.next
  {
    forall id | id in s.jobs
      ensures id < s.next
    {
      assert JobOk(s, id);
    }
  }

  lemma ItselfPrepared(s: Realm)
    requires Ok(s, {})
    ensures Prepared(s, s)
  {
    JobsBelowNext(s);
    forall d | 0 <= d < |s.nodes|
      ensures Alike(s, s, d)
    {
    }
    forall id | id in s.jobs
      ensures JobKept(s, s, id)
    {
    }
  }

  lemma ThenShape(s: Realm, p: Pid, fulfil: bool, reject: bool)
    requires Ok(s, {}) && Has(s, p)
    ensures Shape(s, ThenStep(s, p, fulfil, reject), [])
  {
    JobsBelowNext(s);
    var s' := ThenStep(s, p, fulfil, reject);
    forall d | 0 <= d < |s.nodes|
      ensures Grows(s, s', d, [])
    {
    }
    GrowthShape(s, s');
  }

  lemma StepShape(s: Realm, step: Step) returns (settled: seq<Pid>)
    requires Ok(s, {}) && Enabled(s, step)
    ensures Shape(s, Do(s, step), settled)
  {
    settled := [];
    JobsBelowNext(s);
    ItselfPrepared(s);
    match step
    case CallResolve(p, v) =>
      if Refuses(p, v) {
        StillShape(s, s);
      } else {
        ResolveShape(s, s, p, v);
        settled := Settles(s, p, v);
      }
    case CallReject(p, v) =>
      DeclineShape(s, s, p, v);
      settled := if s.nodes[p].state.Pending? then [p] else [];
    case Subscribe(p, fulfil, reject) => ThenShape(s, p, fulfil, reject);
    case RunTask(id, first, second) => settled := RunShape(s, id, first, second);
    case _ =>
      forall d | 0 <= d < |s.nodes|
        ensures Grows(s, Do(s, step), d, [])
      {
      }
      GrowthShape(s, Do(s, step));
  }

  // ---- settling is final

  lemma InitOk(s: Realm)
    requires Init(s)
    ensures Ok(s, {})
  {
  }

  lemma {:induction false} SettledStays(s: Realm, steps: seq<Step>, s': Realm, p: Pid)
    requires Ok(s, {}) && Runs(s, steps, s') && Settled(s, p)
    ensures Settled(s', p) && s'.nodes[p].state == s.nodes[p].state && s'.nodes[p].origin == s.nodes[p].origin
    ensures s'.nodes[p].waited == s.nodes[p].waited
    decreases |steps|
  {
    if steps != [] {
      var settled := StepShape(s, steps[0]);
      assert Grows(s, Do(s, steps[0]), p, settled);
      StepOk(s, steps[0]);
      SettledStays(Do(s, steps[0]), steps[1..], s', p);
    }
  }

  lemma {:induction false} RunsCompose(s: Realm, before: seq<Step>, m: Realm, after: seq<Step>, s': Realm)
    requires Runs(s, before, m) && Runs(m, after, s')
    ensures Runs(s, before + after, s')
    decreases |before|
  {
    if before == [] {
      assert before + after == after;
    } else {
      RunsCompose(Do(s, before[0]), before[1..], m, after, s');
      assert (before + after)[1..] == before[1..] + after;
    }
  }

  /** A promise settles at most once, with a value that is no promise, and keeps its state for good. */
  lemma SettlesOnce(s: Realm, before: seq<Step>, m: Realm, after: seq<Step>, s': Realm, p: Pid)
    requires Init(s) && Runs(s, before, m) && Runs(m, after, s') && Settled(m, p)
    ensures Settled(s', p) && s'.nodes[p].state == m.nodes[p].state
    ensures m.nodes[p].broadcasts == 1 && s'.nodes[p].broadcasts == 1
    ensures s'.nodes[p].state.Resolved? ==> !s'.nodes[p].state.value.Ref?
  {
    InitOk(s);
    RunOk(s, before, m);
    RunOk(m, after, s');
    SettledStays(m, after, s', p);
    assert NodeOk(m, p, {}) && NodeOk(s', p, {});
  }

  // ---- each entry is scheduled at most once

  function NewTasksFor(s: Realm, s': Realm, p: Pid, i: nat): set<nat> {
    set id | id in s'.jobs && id >= s.next && Serves(s'.jobs[id], p, i)
  }

  /** All tasks that a run ever schedules for entry `i` of promise `p`. */
  function TasksFor(s: Realm, steps: seq<Step>, p: Pid, i: nat): set<nat>
    decreases |steps|
  {
    if steps == [] || !Enabled(s, steps[0]) then {}
    else
      var s' := Do(s, steps[0]);
      NewTasksFor(s, s', p, i) + TasksFor(s', steps[1..], p, i)
  }

  /** One step serves an entry only when it settles the promise. */
  lemma StepServes(s: Realm, step: Step, p: Pid, i: nat)
    requires Ok(s, {}) && Enabled(s, step)
    ensures NewTasksFor(s, Do(s, step), p, i) == if ServesEntry(s, Do(s, step), p, i) then {s.next + i} else {}
  {
    var settled := StepShape(s, step);
    ShapeServes(s, Do(s, step), settled, p, i);
  }

  /** The promise settles and entry `i` is among the chosen ones. */
  predicate ServesEntry(s: Realm, s': Realm, p: Pid, i: nat) {
    && Has(s, p) && s.nodes[p].state.Pending? && Settled(s', p) && i < |s.nodes[p].subs|
    && Chosen(s.nodes[p].subs, s'.nodes[p].state, i)
  }

  lemma NewTaskFits(s: Realm, s': Realm, settled: seq<Pid>, p: Pid, i: nat, id: nat)
    requires Shape(s, s', settled) && id in NewTasksFor(s, s', p, i)
    ensures id == s.next + i && ServesEntry(s, s', p, i)
  {
    assert JobFits(s, s', id, settled);
    assert Grows(s, s', p, settled);
  }

  lemma ShapeServes(s: Realm, s': Realm, settled: seq<Pid>, p: Pid, i: nat)
    requires Shape(s, s', settled)
    ensures NewTasksFor(s, s', p, i) == if ServesEntry(s, s', p, i) then {s.next + i} else {}
  {
    forall id | id in NewTasksFor(s, s', p, i)
      ensures id == s.next + i && ServesEntry(s, s', p, i)
    {
      NewTaskFits(s, s', settled, p, i, id);
    }
    if ServesEntry(s, s', p, i) {
      assert Grows(s, s', p, settled) && IsServed(s, s', p, i);
    }
  }

  lemma {:induction false} NoMoreTasks(s: Realm, steps: seq<Step>, s': Realm, p: Pid, i: nat)
    requires Ok(s, {}) && Runs(s, steps, s') && Settled(s, p)
    ensures TasksFor(s, steps, p, i) == {}
    decreases |steps|
  {
    if steps != [] {
      StepServes(s, steps[0], p, i);
      SettledStays(s, [steps[0]], Do(s, steps[0]), p);
      StepOk(s, steps[0]);
      NoMoreTasks(Do(s, steps[0]), steps[1..], s', p, i);
    }
  }

  /** What a settled promise owes an entry that was there when it settled. */
  predicate Owed(state: State, entry: Entry) {
    if state.Resolved? then entry.HasResolve() else entry.HasReject()
  }

  /** Entry `i` of promise `p` is there while the promise is pending. */
  predicate Waits(s: Realm, p: Pid, i: nat) {
    Has(s, p) && s.nodes[p].state.Pending? && i < |s.nodes[p].subs|
  }

  lemma {:induction false} ScheduledAtMostOnce(s: Realm, steps: seq<Step>, s': Realm, p: Pid, i: nat)
    requires Ok(s, {}) && Runs(s, steps, s')
    ensures |TasksFor(s, steps, p, i)| <= 1
    ensures Waits(s, p, i) && Settled(s', p) && Owed(s'.nodes[p].state, s.nodes[p].subs[i]) ==>
              |TasksFor(s, steps, p, i)| == 1
    decreases |steps|
  {
    if steps != [] {
      var m := Do(s, steps[0]);
      var settled := StepShape(s, steps[0]);
      StepServes(s, steps[0], p, i);
      StepOk(s, steps[0]);
      if Settled(m, p) {
        NoMoreTasks(m, steps[1..], s', p, i);
        SettledStays(m, steps[1..], s', p);
        if Has(s, p) && s.nodes[p].state.Pending? && i < |s.nodes[p].subs| && s.nodes[p].subs[i].HasReject() {
          RejectIsFound(s.nodes[p].subs, i);
        }
      } else {
        ScheduledAtMostOnce(m, steps[1..], s', p, i);
        if Has(s, p) {
          assert Grows(s, m, p, settled);
        }
      }
    }
  }

  /** Over a whole program each subscriber entry is scheduled at most once, and a matching one exactly once. */
  lemma EachEntryServedOnce(s: Realm, before: seq<Step>, m: Realm, after: seq<Step>, s': Realm, p: Pid, i: nat)
    requires Init(s) && Runs(s, before, m) && Runs(m, after, s')
    ensures |TasksFor(s, before + after, p, i)| <= 1
    ensures Waits(m, p, i) && Settled(s', p) && Owed(s'.nodes[p].state, m.nodes[p].subs[i]) ==>
              |TasksFor(m, after, p, i)| == 1
  {
    InitOk(s);
    RunsCompose(s, before, m, after, s');
    ScheduledAtMostOnce(s, before + after, s', p, i);
    RunOk(s, before, m);
    ScheduledAtMostOnce(m, after, s', p, i);
  }

  // ---- chains

  /** The outcome that a chosen value stands for: itself, or the outcome of the promise that it is. */
  function Outcome(s: Realm, v: Value): State {
    if !v.Ref? then Resolved(v) else if Has(s, v.id) then s.nodes[v.id].state else Pending
  }

  /** What the recorded handler calls of a settled child say its state must be. */
  predicate Follows(s: Realm, parent: State, calls: seq<Call>, c: Pid, state: State) {
    || (calls == [] && parent.Rejected? && state == parent)
    || (calls != [] &&
         var thrown := Thrown(c, calls[|calls| - 1].reply);
         state == if thrown == [] then Outcome(s, calls[|calls| - 1].reply.value) else Rejected(thrown[0]))
  }

  /** The first handler gets the parent's outcome; a second one, the reject handler, what the first threw. */
  predicate Feeds(parent: State, calls: seq<Call>, c: Pid) {
    && (calls != [] ==>
          match parent
          case Pending => false
          case Resolved(v) => calls[0].Fulfil? && calls[0].arg == v
          case Rejected(e) => calls[0].Reject? && calls[0].arg == e)
    && (|calls| > 1 ==>
          && |calls| == 2 && parent.Resolved? && calls[1].Reject?
          && Thrown(c, calls[0].reply) == [calls[1].arg])
  }

  /** A child settles only after its parent, with the flattened result of the handler that was called last. */
  lemma ChildFollowsParent(s: Realm, steps: seq<Step>, s': Realm, c: Pid)
    requires Init(s) && Runs(s, steps, s') && Settled(s', c) && s'.nodes[c].origin.ChildOf?
    ensures var p := s'.nodes[c].origin.parent;
            && Settled(s', p) && Feeds(s'.nodes[p].state, s'.nodes[c].calls, c)
            && Follows(s', s'.nodes[p].state, s'.nodes[c].calls, c, s'.nodes[c].state)
  {
    InitOk(s);
    RunOk(s, steps, s');
    assert NodeOk(s', c, {});
    assert NodeOk(s', s'.nodes[c].origin.parent, {});
  }

  // ---- Promise.all

  /** Promise.all resolves with all values, when all are resolved, and rejects for a rejected member. */
  lemma AllResolvesWithAll(s: Realm, steps: seq<Step>, s': Realm, c: Pid)
    requires Init(s) && Runs(s, steps, s') && Settled(s', c) && s'.nodes[c].origin.AllOf?
    ensures var items := s'.nodes[c].origin.items;
            match s'.nodes[c].state
            case Resolved(v) => v.List? && Collects(s', items, v.items)
            case Rejected(e) => BlamesMember(s', items, e)
            case Pending => false
  {
    InitOk(s);
    RunOk(s, steps, s');
    assert NodeOk(s', c, {});
  }

  /** The first item in array order whose promise is rejected now. */
  predicate FirstRejected(s: Realm, items: seq<Value>, i: nat, e: Value) {
    && i < |items| && ItemRejected(s, items[i]) && s.nodes[items[i].id].state == Rejected(e)
    && forall k :: 0 <= k < i ==> !ItemRejected(s, items[k])
  }

  /** The poll that decides: a rejection is that of the first rejected member at this moment. */
  lemma DecidingPoll(s: Realm, steps: seq<Step>, m: Realm, id: nat, first: Reply, second: Reply)
    requires Init(s) && Runs(s, steps, m) && Enabled(m, RunTask(id, first, second)) && m.jobs[id].Poll?
    ensures var c := m.jobs[id].all; var m' := Do(m, RunTask(id, first, second));
            var items := m.nodes[c].origin.items;
            && Has(m, c) && Has(m', c) && m.nodes[c].state.Pending?
            && match m'.nodes[c].state
               case Pending => m'.next == m.next + 1 && m.next in m'.jobs && m'.jobs[m.next] == Poll(c)
                               && exists i :: 0 <= i < |items| && ItemPending(m, items[i])
               case Resolved(v) => v.List? && Collects(m, items, v.items)
               case Rejected(e) => if Undefined in items then e == TYPE_ERROR else exists i :: FirstRejected(m, items, i, e)
  {
    InitOk(s);
    RunOk(s, steps, m);
    var c, rest := m.jobs[id].all, Dequeue(m, id);
    var items := m.nodes[c].origin.items;
    assert JobOk(m, id) && NodeOk(m, c, {});
    TargetIsReady(m, id);
    SameItems(m, rest, items);
    DecideMeans(m, items);
    PollActs(rest, c);
    if Decide(rest, items).Reason? {
      var e := Decide(rest, items).reason;
      if Undefined !in items {
        var i :| 0 <= i < |items| && ItemRejected(m, items[i]) && m.nodes[items[i].id].state.reason == e
                 && forall k :: 0 <= k < i ==> !ItemRejected(m, items[k]);
        assert FirstRejected(m, items, i, e);
      }
    }
  }

  /** What a poll does with its verdict. */
  lemma PollActs(s: Realm, c: Pid)
    requires Has(s, c) && s.nodes[c].origin.AllOf? && s.nodes[c].state.Pending?
    ensures var s' := OnPoll(s, c);
            && Has(s', c)
            && match Decide(s, s.nodes[c].origin.items)
               case Again => s'.nodes[c].state.Pending? && s'.next == s.next + 1 && s.next in s'.jobs && s'.jobs[s.next] == Poll(c)
               case Values(values) => s'.nodes[c].state == Resolved(List(values))
               case Reason(e) => s'.nodes[c].state == Rejected(e)
  {
  }

  lemma {:induction false} SameItems(s: Realm, m: Realm, items: seq<Value>)
    requires |m.nodes| == |s.nodes| && forall q :: 0 <= q < |s.nodes| ==> m.nodes[q].state == s.nodes[q].state
    ensures Decide(m, items) == Decide(s, items) && FirstReason(m, items) == FirstReason(s, items)
  {
    if items != [] {
      SameItems(s, m, items[1..]);
    }
    assert forall i :: 0 <= i < |items| ==> ItemPending(m, items[i]) == ItemPending(s, items[i]);
    assert seq(|items|, i requires 0 <= i < |items| => ItemValue(m, items[i]))
        == seq(|items|, i requires 0 <= i < |items| => ItemValue(s, items[i]));
  }

  // ---- when all tasks have run

  /** Without tasks left, a promise that took a value has the outcome of that value. */
  lemma TakenIsOutcome(s: Realm, c: Pid)
    requires Ok(s, {}) && s.jobs == map[] && Internal(s, c) && s.nodes[c].fate.Takes?
    ensures s.nodes[c].state == Outcome(s, s.nodes[c].fate.value)
  {
    assert NodeOk(s, c, {});
    var where := s.nodes[c].where;
    if where.At? {
      assert EntryOk(s, where.parent, where.index);
    }
  }

  /** The state that the outcome of a handler call gives; `lost` when an exception is swallowed. */
  function AfterCall(s: Realm, c: Pid, reply: Reply, otherwise: State): State {
    if Thrown(c, reply) == [] then Outcome(s, reply.value) else otherwise
  }

  /** What a child has become once every task has run, for each outcome of its parent. */
  predicate FinalFor(s: Realm, parent: Node, node: Node, c: Pid, fulfil: bool, reject: bool) {
    match parent.state
    case Pending => node.state.Pending? && node.calls == []
    case Resolved(v) =>
      if !fulfil then node.state.Pending? && node.calls == []
      else
        && node.calls != [] && node.calls[0].Fulfil? && node.calls[0].arg == v
        && (var thrown := Thrown(c, node.calls[0].reply);
            if thrown == [] then |node.calls| == 1 && node.state == Outcome(s, node.calls[0].reply.value)
            else if !reject then |node.calls| == 1 && node.state == Rejected(thrown[0])
            else
              && |node.calls| == 2 && node.calls[1].Reject? && node.calls[1].arg == thrown[0]
              && node.state == AfterCall(s, c, node.calls[1].reply, Pending))
    case Rejected(e) =>
      if !reject then node.calls == [] && node.state == (if PassesOn(parent, c) then parent.state else Pending)
      else
        && |node.calls| == 1 && node.calls[0].Reject? && node.calls[0].arg == e
        && (var thrown := Thrown(c, node.calls[0].reply);
            node.state == AfterCall(s, c, node.calls[0].reply,
                                    if thrown != [] && CarriesProperty(thrown[0]) then Rejected(thrown[0]) else Pending))
  }

  /** Without tasks left, no child has missed a handler that its parent's outcome calls for. */
  lemma ChildIsFinal(s: Realm, c: Pid)
    requires Ok(s, {}) && s.jobs == map[] && Has(s, c) && s.nodes[c].origin.ChildOf?
    ensures var ChildOf(p, fulfil, reject) := s.nodes[c].origin;
            Has(s, p) && FinalFor(s, s.nodes[p], s.nodes[c], c, fulfil, reject)
  {
    assert NodeOk(s, c, {});
    if s.nodes[c].where.At? {
      assert EntryOk(s, s.nodes[c].where.parent, s.nodes[c].where.index);
    }
    if s.nodes[c].fate.Takes? {
      TakenIsOutcome(s, c);
    }
  }

  /** When all scheduled tasks have run, every child of every `then` is what its parent and handlers make it. */
  lemma QuietChildren(s: Realm, steps: seq<Step>, s': Realm, c: Pid)
    requires Init(s) && Runs(s, steps, s') && s'.jobs == map[] && Has(s', c) && s'.nodes[c].origin.ChildOf?
    ensures var ChildOf(p, fulfil, reject) := s'.nodes[c].origin;
            Has(s', p) && FinalFor(s', s'.nodes[p], s'.nodes[c], c, fulfil, reject)
  {
    InitOk(s);
    RunOk(s, steps, s');
    ChildIsFinal(s', c);
  }

  /** Promise.resolve and Promise.reject have done their work when all tasks have run. */
  lemma GivenIsFinal(s: Realm, c: Pid)
    requires Ok(s, {}) && s.jobs == map[] && Has(s, c) && s.nodes[c].origin.Given?
    ensures s.nodes[c].state ==
              if s.nodes[c].origin.ok then Outcome(s, s.nodes[c].origin.value) else Rejected(s.nodes[c].origin.value)
  {
    assert NodeOk(s, c, {});
    if s.nodes[c].where.At? {
      assert EntryOk(s, s.nodes[c].where.parent, s.nodes[c].where.index);
    }
    if s.nodes[c].fate.Takes? {
      TakenIsOutcome(s, c);
    }
  }

  lemma {:induction false} OriginStays(s: Realm, steps: seq<Step>, s': Realm, p: Pid)
    requires Ok(s, {}) && Runs(s, steps, s') && Has(s, p)
    ensures Has(s', p) && s'.nodes[p].origin == s.nodes[p].origin
    decreases |steps|
  {
    if steps != [] {
      var settled := StepShape(s, steps[0]);
      assert Grows(s, Do(s, steps[0]), p, settled);
      StepOk(s, steps[0]);
      OriginStays(Do(s, steps[0]), steps[1..], s', p);
    }
  }

  /** The child of a `then` on a promise that is still pending. */
  lemma EarlyChild(m: Realm, p: Pid, reject: bool, after: seq<Step>, s': Realm, v: Value)
    requires Ok(m, {}) && Has(m, p) && m.nodes[p].state.Pending?
    requires Runs(Do(m, Subscribe(p, true, reject)), after, s') && s'.jobs == map[] && Has(s', p) && s'.nodes[p].state == Resolved(v)
    ensures var c := |m.nodes|; Has(s', c) && FinalFor(s', s'.nodes[p], s'.nodes[c], c, true, reject)
  {
    var m' := Do(m, Subscribe(p, true, reject));
    StepOk(m, Subscribe(p, true, reject));
    OriginStays(m', after, s', |m.nodes|);
    RunOk(m', after, s');
    ChildIsFinal(s', |m.nodes|);
  }

  /** The child of a `then` on a promise that is already resolved. */
  lemma LateChild(m: Realm, p: Pid, reject: bool, after: seq<Step>, s': Realm, v: Value)
    requires Ok(m, {}) && Has(m, p) && m.nodes[p].state == Resolved(v)
    requires Runs(Do(m, Subscribe(p, true, reject)), after, s') && s'.jobs == map[]
    ensures var g, c := |m.nodes|, |m.nodes| + 1;
            Has(s', c) && s'.nodes[g].state == Resolved(v) && FinalFor(s', s'.nodes[g], s'.nodes[c], c, true, false)
  {
    var m' := Do(m, Subscribe(p, true, reject));
    assert NodeOk(m, p, {});
    StepOk(m, Subscribe(p, true, reject));
    OriginStays(m', after, s', |m.nodes|);
    OriginStays(m', after, s', |m.nodes| + 1);
    RunOk(m', after, s');
    GivenIsFinal(s', |m.nodes|);
    ChildIsFinal(s', |m.nodes| + 1);
  }

  /**
   * Two calls of `then` on one promise, the first before it resolves and the second after: when all
   * tasks have run, each fulfil handler was called with the promise's value, and handlers that give
   * the same result without throwing gave both children the same outcome.
   */
  lemma EarlyThenEqualsLateThen(s: Realm, before: seq<Step>, m: Realm, p: Pid, reject: bool, between: seq<Step>,
                                n: Realm, reject': bool, after: seq<Step>, s': Realm, v: Value)
    requires Init(s) && Runs(s, before, m) && Has(m, p) && m.nodes[p].state.Pending?
    requires Runs(Do(m, Subscribe(p, true, reject)), between, n) && Has(n, p) && n.nodes[p].state == Resolved(v)
    requires Runs(Do(n, Subscribe(p, true, reject')), after, s') && s'.jobs == map[]
    ensures var c, d := |m.nodes|, |n.nodes| + 1;
            && Has(s', c) && Has(s', d) && s'.nodes[c].calls != [] && s'.nodes[d].calls != []
            && (var first, second := s'.nodes[c].calls[0], s'.nodes[d].calls[0];
                && first.Fulfil? && second.Fulfil? && first.arg == v && second.arg == v
                && (first.reply == second.reply && Thrown(c, first.reply) == [] && Thrown(d, second.reply) == [] ==>
                      s'.nodes[c].state == s'.nodes[d].state == Outcome(s', first.reply.value)))
  {
    InitOk(s);
    RunOk(s, before, m);
    StepOk(m, Subscribe(p, true, reject));
    RunOk(Do(m, Subscribe(p, true, reject)), between, n);
    LateChild(n, p, reject', after, s', v);
    var late := [Subscribe(p, true, reject')] + after;
    assert late[1..] == after;
    RunsCompose(Do(m, Subscribe(p, true, reject)), between, n, late, s');
    SettledStays(n, late, s', p);
    EarlyChild(m, p, reject, between + late, s', v);
  }

  /** The reject handler given to a promise that is already rejected sits in the resolve slot and is never called. */
  lemma LateCatchIsNeverCalled(s: Realm, before: seq<Step>, m: Realm, p: Pid, fulfil: bool, after: seq<Step>, s': Realm)
    requires Init(s) && Runs(s, before, m) && Has(m, p) && m.nodes[p].state.Rejected?
    requires Runs(Do(m, Subscribe(p, fulfil, true)), after, s')
    ensures var c := |m.nodes| + 1; Has(s', c) && s'.nodes[c].calls == []
  {
    InitOk(s);
    RunOk(s, before, m);
    var m' := Do(m, Subscribe(p, fulfil, true));
    StepOk(m, Subscribe(p, fulfil, true));
    var g := |m.nodes|;
    OriginStays(m', after, s', g);
    OriginStays(m', after, s', g + 1);
    RunOk(m', after, s');
    ChildOfGivenReason(s', g, g + 1, m.nodes[p].state.reason);
  }

  lemma ChildOfGivenReason(s: Realm, g: Pid, c: Pid, reason: Value)
    requires Ok(s, {}) && Has(s, g) && Has(s, c)
    requires s.nodes[g].origin == Given(reason, false) && s.nodes[c].origin == ChildOf(g, true, false)
    ensures s.nodes[c].calls == []
  {
    assert NodeOk(s, g, {}) && NodeOk(s, c, {});
  }
}
