/** What each call that a program makes brings about, said in the terms of the call. */
module PromiseCalls {
  import opened Promises
  import opened PromiseInvariant
  import opened PromiseSteps
  import opened PromiseTheorems

  /** A call in the middle of a run, after which all tasks run. */
  ghost predicate CalledIn(s: Realm, before: seq<Step>, m: Realm, call: Step, after: seq<Step>, s': Realm) {
    Init(s) && Runs(s, before, m) && Enabled(m, call) && Runs(Do(m, call), after, s')
  }

  lemma CalledOk(s: Realm, before: seq<Step>, m: Realm, call: Step, after: seq<Step>, s': Realm)
    requires CalledIn(s, before, m, call, after, s')
    ensures Ok(m, {}) && Ok(Do(m, call), {}) && Ok(s', {})
  {
    InitOk(s);
    RunOk(s, before, m);
    StepOk(m, call);
    RunOk(Do(m, call), after, s');
  }

  // ---- then and catch

  /** The promise that `then` returns: the last one it made. */
  function Returned(m: Realm, p: Pid, fulfil: bool, reject: bool): Pid
    requires Has(m, p)
  {
    |ThenStep(m, p, fulfil, reject).nodes| - 1
  }

  /** `then` or `catch` on a pending promise, by the handlers of the call: for every outcome of the promise. */
  lemma ThenOnPending(s: Realm, before: seq<Step>, m: Realm, p: Pid, fulfil: bool, reject: bool, after: seq<Step>, s': Realm)
    requires CalledIn(s, before, m, Subscribe(p, fulfil, reject), after, s') && s'.jobs == map[]
    requires m.nodes[p].state.Pending? && (fulfil || reject)
    ensures var c := Returned(m, p, fulfil, reject);
            c == |m.nodes| && Has(s', c) && Has(s', p) && FinalFor(s', s'.nodes[p], s'.nodes[c], c, fulfil, reject)
  {
    CalledOk(s, before, m, Subscribe(p, fulfil, reject), after, s');
    OriginStays(Do(m, Subscribe(p, fulfil, reject)), after, s', |m.nodes|);
    ChildIsFinal(s', |m.nodes|);
  }

  /** On a settled promise with a handler for its outcome: the handler hangs on a new promise of that outcome. */
  lemma ThenOnSettled(s: Realm, before: seq<Step>, m: Realm, p: Pid, fulfil: bool, reject: bool, after: seq<Step>, s': Realm)
    requires CalledIn(s, before, m, Subscribe(p, fulfil, reject), after, s') && s'.jobs == map[]
    requires (m.nodes[p].state.Resolved? && fulfil) || (m.nodes[p].state.Rejected? && reject)
    ensures var g, c := |m.nodes|, Returned(m, p, fulfil, reject);
            && c == g + 1 && Has(s', c) && s'.nodes[g].state == m.nodes[p].state
            && FinalFor(s', s'.nodes[g], s'.nodes[c], c, true, false)
  {
    CalledOk(s, before, m, Subscribe(p, fulfil, reject), after, s');
    var m', g := Do(m, Subscribe(p, fulfil, reject)), |m.nodes|;
    assert NodeOk(m, p, {});
    OriginStays(m', after, s', g);
    OriginStays(m', after, s', g + 1);
    GivenIsFinal(s', g);
    ChildIsFinal(s', g + 1);
  }

  /** On a settled promise without a handler for its outcome: no handler is ever called and nothing settles the child. */
  lemma ThenInVain(s: Realm, before: seq<Step>, m: Realm, p: Pid, fulfil: bool, reject: bool, after: seq<Step>, s': Realm)
    requires CalledIn(s, before, m, Subscribe(p, fulfil, reject), after, s') && s'.jobs == map[] && (fulfil || reject)
    requires (m.nodes[p].state.Resolved? && !fulfil) || (m.nodes[p].state.Rejected? && !reject)
    ensures var c := Returned(m, p, fulfil, reject);
            c == |m.nodes| && Has(s', c) && s'.nodes[c].state.Pending? && s'.nodes[c].calls == []
  {
    CalledOk(s, before, m, Subscribe(p, fulfil, reject), after, s');
    var m', c := Do(m, Subscribe(p, fulfil, reject)), |m.nodes|;
    OriginStays(m', after, s', c);
    SettledStays(m', after, s', p);
    NewcomerDidNotWait(m, p);
    ChildIsFinal(s', c);
  }

  /** Without handlers: a promise that is rejected with a TypeError, whatever the other one does. */
  lemma ThenWithoutHandlers(s: Realm, before: seq<Step>, m: Realm, p: Pid, after: seq<Step>, s': Realm)
    requires CalledIn(s, before, m, Subscribe(p, false, false), after, s') && s'.jobs == map[]
    ensures var c := Returned(m, p, false, false);
            c == |m.nodes| && Has(s', c) && s'.nodes[c].state == Rejected(TYPE_ERROR)
  {
    CalledOk(s, before, m, Subscribe(p, false, false), after, s');
    OriginStays(Do(m, Subscribe(p, false, false)), after, s', |m.nodes|);
    GivenIsFinal(s', |m.nodes|);
  }

  // ---- Promise.resolve, Promise.reject and Promise.all

  lemma GivenByCall(s: Realm, before: seq<Step>, m: Realm, v: Value, ok: bool, after: seq<Step>, s': Realm)
    requires CalledIn(s, before, m, Give(v, ok), after, s') && s'.jobs == map[]
    ensures var c := |m.nodes|;
            && |Do(m, Give(v, ok)).nodes| == c + 1 && Has(s', c)
            && s'.nodes[c].state == if ok then Outcome(s', v) else Rejected(v)
  {
    CalledOk(s, before, m, Give(v, ok), after, s');
    OriginStays(Do(m, Give(v, ok)), after, s', |m.nodes|);
    GivenIsFinal(s', |m.nodes|);
  }

  /** The items are those of the call; when all tasks have run the promise is settled. */
  lemma AllByCall(s: Realm, before: seq<Step>, m: Realm, items: seq<Value>, after: seq<Step>, s': Realm)
    requires CalledIn(s, before, m, All(items), after, s')
    ensures var c := |m.nodes|;
            && |Do(m, All(items)).nodes| == c + 1 && Has(s', c) && (s'.jobs == map[] ==> Settled(s', c))
            && match s'.nodes[c].state
               case Pending => true
               case Resolved(v) => v.List? && Collects(s', items, v.items)
               case Rejected(e) => BlamesMember(s', items, e)
  {
    CalledOk(s, before, m, All(items), after, s');
    OriginStays(Do(m, All(items)), after, s', |m.nodes|);
    AllIsSettled(s', |m.nodes|);
  }

  lemma AllIsSettled(s: Realm, c: Pid)
    requires Ok(s, {}) && Has(s, c) && s.nodes[c].origin.AllOf?
    ensures s.jobs == map[] ==> Settled(s, c)
    ensures match s.nodes[c].state
            case Pending => true
            case Resolved(v) => v.List? && Collects(s, s.nodes[c].origin.items, v.items)
            case Rejected(e) => BlamesMember(s, s.nodes[c].origin.items, e)
  {
    assert NodeOk(s, c, {});
    var where := s.nodes[c].where;
    assert where.At? ==> EntryOk(s, where.parent, where.index);
  }

  // ---- resolve and reject, called by an executor

  /** What the first call that settles a promise gives it stays, and a call after that changes nothing. */
  lemma SettledByCall(s: Realm, before: seq<Step>, m: Realm, call: Step, after: seq<Step>, s': Realm)
    requires CalledIn(s, before, m, call, after, s')
    requires (call.CallResolve? && !call.value.Ref?) || call.CallReject?
    ensures Has(s', call.p)
    ensures s'.nodes[call.p].state ==
              if !m.nodes[call.p].state.Pending? then m.nodes[call.p].state
              else if call.CallResolve? then Resolved(call.value) else Rejected(call.value)
    ensures !m.nodes[call.p].state.Pending? ==> Do(m, call) == m
  {
    CalledOk(s, before, m, call, after, s');
    SettledStays(Do(m, call), after, s', call.p);
  }

  /** Resolving a promise with itself is refused. */
  lemma ResolvedWithItself(m: Realm, p: Pid)
    requires Enabled(m, CallResolve(p, Ref(p)))
    ensures Do(m, CallResolve(p, Ref(p))) == m
  {
  }

  /** broadcastReject throws exactly if it settles the promise and thereby schedules no task. */
  lemma ThrowsIfNobodyIsServed(s: Realm, p: Pid, reason: Value)
    requires Ok(s, {}) && Has(s, p)
    ensures Unhandled(s, p) <==> s.nodes[p].state.Pending? && Decline(s, p, reason).jobs == s.jobs
  {
    var subs, state := s.nodes[p].subs, Rejected(reason);
    if s.nodes[p].state.Pending? {
      var s' := Settle(s, p, state);
      SettleBecomes(s, p, state);
      if i :| 0 <= i < |subs| && (subs[i].HasReject() || subs[i].HasResolve()) {
        SomeoneIsChosen(subs, reason, i);
        var k :| 0 <= k < |subs| && Chosen(subs, state, k);
        assert JobAdded(s, p, state, s', k);
        assert s.next + k in s.jobs ==> JobOk(s, s.next + k);
      } else {
        forall id | id in s'.jobs
          ensures id in s.jobs && s'.jobs[id] == s.jobs[id]
        {
          assert id in s.jobs ==> JobOk(s, id) && OldJobKept(s, s', id);
        }
        OldJobsThere(s, s');
      }
    }
  }

  lemma SomeoneIsChosen(subs: seq<Entry>, reason: Value, i: nat)
    requires i < |subs| && (subs[i].HasReject() || subs[i].HasResolve())
    ensures exists k :: 0 <= k < |subs| && Chosen(subs, Rejected(reason), k)
  {
    if AnyReject(subs) {
      var k :| 0 <= k < |subs| && subs[k].HasReject();
      assert Chosen(subs, Rejected(reason), k);
    } else {
      assert Chosen(subs, Rejected(reason), i);
    }
  }

  lemma OldJobsThere(s: Realm, s': Realm)
    requires Ok(s, {}) && forall id :: id in s.jobs && id < s.next ==> OldJobKept(s, s', id)
    requires forall id :: id in s'.jobs ==> id in s.jobs && s'.jobs[id] == s.jobs[id]
    ensures s'.jobs == s.jobs
  {
    forall id | id in s.jobs
      ensures id in s'.jobs
    {
      assert JobOk(s, id);
    }
  }

  /** A task that is going to give `p` the outcome of `q`. */
  predicate Delivers(s: Realm, job: Job, p: Pid, q: Pid) {
    match job
    case ResolveWith(c, from, _) => c == p && from == q
    case RejectWith(c, from, _) => c == p && from == q
    case Fulfilled(from, i, _) => from == q && Has(s, q) && i < |s.nodes[q].subs| && s.nodes[q].subs[i] == Adopt(p)
    case Declined(from, i, _) => from == q && Has(s, q) && i < |s.nodes[q].subs| && s.nodes[q].subs[i] == Adopt(p)
    case _ => false
  }

  predicate WaitsAt(s: Realm, p: Pid, q: Pid, i: nat) {
    Has(s, q) && s.nodes[q].state.Pending? && i < |s.nodes[q].subs| && s.nodes[q].subs[i] == Adopt(p)
  }

  /** `p` is settled, or waits for `q`, or a task is about to settle it with the outcome of `q`. */
  ghost predicate Adopting(s: Realm, p: Pid, q: Pid) {
    || Settled(s, p)
    || (exists i :: WaitsAt(s, p, q, i))
    || (exists id :: id in s.jobs && Delivers(s, s.jobs[id], p, q))
  }

  /** A task that is not the one that runs stays in the queue. */
  lemma JobsStay(s: Realm, step: Step, id: nat)
    requires Ok(s, {}) && Enabled(s, step) && id in s.jobs && !(step.RunTask? && step.id == id)
    ensures id in Do(s, step).jobs && Do(s, step).jobs[id] == s.jobs[id]
  {
    assert JobOk(s, id);
    match step
    case CallResolve(p, v) => ResolveKeepsJobs(s, p, v, id);
    case CallReject(p, e) => DeclineKeepsJobs(s, p, e, id);
    case RunTask(k, first, second) => RunKeepsJobs(s, k, first, second, id);
    case _ =>
  }

  lemma SettleKeepsOldJobs(s: Realm, p: Pid, state: State, id: nat)
    requires Has(s, p) && !state.Pending? && id in s.jobs && id < s.next
    ensures id in Settle(s, p, state).jobs && Settle(s, p, state).jobs[id] == s.jobs[id]
    ensures s.next <= Settle(s, p, state).next
  {
    SettleJobs(s, p, state);
  }

  lemma ResolveKeepsJobs(s: Realm, p: Pid, v: Value, id: nat)
    requires Has(s, p) && Known(s, v) && id in s.jobs && id < s.next
    ensures id in Resolve(s, p, v).jobs && Resolve(s, p, v).jobs[id] == s.jobs[id] && s.next <= Resolve(s, p, v).next
  {
    if s.nodes[p].state.Pending? && !v.Ref? {
      SettleKeepsOldJobs(s, p, Resolved(v), id);
    }
  }

  lemma DeclineKeepsJobs(s: Realm, p: Pid, e: Value, id: nat)
    requires Has(s, p) && id in s.jobs && id < s.next
    ensures id in Decline(s, p, e).jobs && Decline(s, p, e).jobs[id] == s.jobs[id] && s.next <= Decline(s, p, e).next
  {
    if s.nodes[p].state.Pending? {
      SettleKeepsOldJobs(s, p, Rejected(e), id);
    }
  }

  lemma FulfilledKeepsJobs(s: Realm, c: Pid, reject: bool, arg: Value, first: Reply, second: Reply, id: nat)
    requires Has(s, c) && KnownReply(s, first) && KnownReply(s, second) && id in s.jobs && id < s.next
    ensures var s' := OnFulfilled(s, c, reject, arg, first, second); id in s'.jobs && s'.jobs[id] == s.jobs[id]
  {
    var called := LogCall(s, c, Fulfil(arg, first));
    var thrown := Thrown(c, first);
    if thrown == [] {
      ResolveKeepsJobs(SetFate(called, c, Takes(first.value)), c, first.value, id);
    } else if !reject {
      DeclineKeepsJobs(SetFate(called, c, Fails(thrown[0])), c, thrown[0], id);
    } else if Thrown(c, second) == [] {
      var again := LogCall(called, c, Reject(thrown[0], second));
      ResolveKeepsJobs(SetFate(again, c, Takes(second.value)), c, second.value, id);
    }
  }

  lemma DeclinedKeepsJobs(s: Realm, c: Pid, arg: Value, reply: Reply, id: nat)
    requires Has(s, c) && KnownReply(s, reply) && id in s.jobs && id < s.next
    ensures var s' := OnDeclined(s, c, arg, reply); id in s'.jobs && s'.jobs[id] == s.jobs[id]
  {
    var called := LogCall(s, c, Reject(arg, reply));
    var thrown := Thrown(c, reply);
    if thrown == [] {
      ResolveKeepsJobs(SetFate(called, c, Takes(reply.value)), c, reply.value, id);
    } else if CarriesProperty(thrown[0]) {
      DeclineKeepsJobs(SetFate(called, c, Fails(thrown[0])), c, thrown[0], id);
    }
  }

  lemma AdoptedKeepsJobs(s: Realm, c: Pid, v: Value, id: nat)
    requires Has(s, c) && Known(s, v) && !v.Ref? && id in s.jobs && id < s.next
    ensures id in OnAdopted(s, c, v).jobs && OnAdopted(s, c, v).jobs[id] == s.jobs[id]
  {
    ResolveKeepsJobs(s, c, v, id);
    ResolveKeepsJobs(Resolve(s, c, v), c, Undefined, id);
  }

  lemma AdoptedRejectionKeepsJobs(s: Realm, c: Pid, e: Value, id: nat)
    requires Has(s, c) && id in s.jobs && id < s.next
    ensures id in OnAdoptedRejection(s, c, e).jobs && OnAdoptedRejection(s, c, e).jobs[id] == s.jobs[id]
  {
    DeclineKeepsJobs(s, c, e, id);
    ResolveKeepsJobs(Decline(s, c, e), c, Undefined, id);
  }

  lemma PollKeepsJobs(s: Realm, c: Pid, id: nat)
    requires Has(s, c) && s.nodes[c].origin.AllOf? && id in s.jobs && id < s.next
    ensures id in OnPoll(s, c).jobs && OnPoll(s, c).jobs[id] == s.jobs[id]
  {
    match Decide(s, s.nodes[c].origin.items)
    case Again =>
    case Values(values) => ResolveKeepsJobs(SetFate(s, c, Takes(List(values))), c, List(values), id);
    case Reason(e) => DeclineKeepsJobs(SetFate(s, c, Fails(e)), c, e, id);
  }

  lemma RunKeepsJobs(s: Realm, k: nat, first: Reply, second: Reply, id: nat)
    requires Ok(s, {}) && Enabled(s, RunTask(k, first, second)) && id in s.jobs && id < s.next && k != id
    ensures var s' := RunJob(s, k, first, second); id in s'.jobs && s'.jobs[id] == s.jobs[id]
  {
    var job, rest := s.jobs[k], Dequeue(s, k);
    var c := Target(s, job);
    assert JobOk(s, k);
    match job
    case Fulfilled(p, i, v) =>
      assert NodeOk(s, p, {});
      match s.nodes[p].subs[i] {
        case Adopt(_) => AdoptedKeepsJobs(rest, c, v, id);
        case Then(_, reject, _) => FulfilledKeepsJobs(rest, c, reject, v, first, second, id);
      }
    case Declined(p, i, e) =>
      match s.nodes[p].subs[i] {
        case Adopt(_) => AdoptedRejectionKeepsJobs(rest, c, e, id);
        case Then(_, _, _) => DeclinedKeepsJobs(rest, c, e, first, id);
      }
    case Propagate(_, _, e) => DeclineKeepsJobs(SetFate(rest, c, Fails(e)), c, e, id);
    case ResolveWith(_, _, v) => ResolveKeepsJobs(rest, c, v, id);
    case RejectWith(_, _, e) => DeclineKeepsJobs(rest, c, e, id);
    case Execute(_) =>
      var Given(v, ok) := s.nodes[c].origin;
      if ok {
        ResolveKeepsJobs(SetFate(rest, c, Takes(v)), c, v, id);
      } else {
        DeclineKeepsJobs(SetFate(rest, c, Fails(v)), c, v, id);
      }
    case Poll(_) => PollKeepsJobs(rest, c, id);
  }

  /** The task of an adoption settles its promise. */
  lemma DeliverySettles(s: Realm, id: nat, first: Reply, second: Reply, p: Pid, q: Pid)
    requires Ok(s, {}) && Enabled(s, RunTask(id, first, second)) && Delivers(s, s.jobs[id], p, q) && Has(s, p)
    ensures Settled(Do(s, RunTask(id, first, second)), p)
  {
    var job, rest := s.jobs[id], Dequeue(s, id);
    assert JobOk(s, id) && NodeOk(s, q, {});
    TargetIsReady(s, id);
    match job
    case Fulfilled(_, i, v) =>
      if rest.nodes[p].state.Pending? {
        assert OnAdopted(rest, p, v) == Resolve(rest, p, v);
      }
    case _ =>
  }

  lemma EntryStays(s: Realm, step: Step, p: Pid, q: Pid, i: nat)
    requires Ok(s, {}) && Enabled(s, step) && WaitsAt(s, p, q, i)
    ensures Adopting(Do(s, step), p, q)
  {
    var settled := StepShape(s, step);
    StepOk(s, step);
    EntryIsServed(s, Do(s, step), settled, p, q, i);
  }

  lemma EntryIsServed(s: Realm, s': Realm, settled: seq<Pid>, p: Pid, q: Pid, i: nat)
    requires Shape(s, s', settled) && Ok(s', {}) && WaitsAt(s, p, q, i)
    ensures Adopting(s', p, q)
  {
    assert Grows(s, s', q, settled);
    if s'.nodes[q].state.Pending? {
      assert WaitsAt(s', p, q, i);
    } else {
      RejectIsFound(s.nodes[q].subs, i);
      assert IsServed(s, s', q, i);
      assert JobOk(s', s.next + i);
      assert Delivers(s', s'.jobs[s.next + i], p, q);
    }
  }

  lemma DeliveryStays(s: Realm, step: Step, p: Pid, q: Pid, id: nat)
    requires Ok(s, {}) && Enabled(s, step) && Has(s, p) && id in s.jobs && Delivers(s, s.jobs[id], p, q)
    ensures Adopting(Do(s, step), p, q)
  {
    var s' := Do(s, step);
    if step.RunTask? && step.id == id {
      DeliverySettles(s, id, step.first, step.second, p, q);
    } else {
      JobsStay(s, step, id);
      var settled := StepShape(s, step);
      assert JobOk(s, id);
      assert Grows(s, s', q, settled);
      assert Delivers(s', s'.jobs[id], p, q);
    }
  }

  lemma StepKeepsAdopting(s: Realm, step: Step, p: Pid, q: Pid)
    requires Ok(s, {}) && Enabled(s, step) && Has(s, p) && Adopting(s, p, q)
    ensures Has(Do(s, step), p) && Adopting(Do(s, step), p, q)
  {
    var settled := StepShape(s, step);
    assert Grows(s, Do(s, step), p, settled);
    if Settled(s, p) {
    } else if i :| WaitsAt(s, p, q, i) {
      EntryStays(s, step, p, q, i);
    } else {
      var id :| id in s.jobs && Delivers(s, s.jobs[id], p, q);
      DeliveryStays(s, step, p, q, id);
    }
  }

  lemma {:induction false} RunKeepsAdopting(s: Realm, steps: seq<Step>, s': Realm, p: Pid, q: Pid)
    requires Ok(s, {}) && Runs(s, steps, s') && Has(s, p) && Adopting(s, p, q)
    ensures Has(s', p) && Adopting(s', p, q)
    decreases |steps|
  {
    if steps != [] {
      StepKeepsAdopting(s, steps[0], p, q);
      StepOk(s, steps[0]);
      RunKeepsAdopting(Do(s, steps[0]), steps[1..], s', p, q);
    }
  }

  lemma CallAdopts(m: Realm, p: Pid, q: Pid)
    requires Ok(m, {}) && Enabled(m, CallResolve(p, Ref(q))) && p != q
    ensures Has(Do(m, CallResolve(p, Ref(q))), p) && Adopting(Do(m, CallResolve(p, Ref(q))), p, q)
  {
    var m' := Do(m, CallResolve(p, Ref(q)));
    if m.nodes[p].state.Pending? {
      if m.nodes[q].state.Pending? {
        assert WaitsAt(m', p, q, |m.nodes[q].subs|);
      } else {
        assert Delivers(m', m'.jobs[m.next], p, q);
      }
    }
  }

  /** A promise resolved with another one settles as soon as that one has and all tasks have run. */
  lemma AdoptedOutcomeArrives(s: Realm, before: seq<Step>, m: Realm, p: Pid, q: Pid, after: seq<Step>, s': Realm)
    requires CalledIn(s, before, m, CallResolve(p, Ref(q)), after, s') && p != q
    requires s'.jobs == map[] && Settled(s', q)
    ensures Settled(s', p)
  {
    CalledOk(s, before, m, CallResolve(p, Ref(q)), after, s');
    CallAdopts(m, p, q);
    RunKeepsAdopting(Do(m, CallResolve(p, Ref(q))), after, s', p, q);
  }
}
