/** Where the state of a promise that a program made with `new Promise` comes from. */
module PromiseOutside {
  import opened Promises
  import opened PromiseInvariant
  import opened PromiseSteps
  import opened PromiseTheorems
  import opened PromiseCalls

  // ---- what running for one promise may change

  /** Only the state of `c` may differ, and only `c` may be a new subscriber, if it adopts. */
  predicate NodeLocal(s: Realm, s': Realm, c: Pid, adopts: bool, d: Pid)
    requires Has(s, d)
  {
    && Has(s', d) && s'.nodes[d].origin == s.nodes[d].origin
    && (d != c ==> s'.nodes[d].state == s.nodes[d].state)
    && s.nodes[d].subs <= s'.nodes[d].subs
    && forall i :: |s.nodes[d].subs| <= i < |s'.nodes[d].subs| ==> adopts && s'.nodes[d].subs[i] == Adopt(c)
  }

  /** Copying tasks are made for `c` only, if it adopts. */
  predicate JobLocal(s: Realm, s': Realm, c: Pid, adopts: bool, id: nat)
    requires id in s'.jobs
  {
    || (id in s.jobs && s'.jobs[id] == s.jobs[id])
    || match s'.jobs[id]
       case ResolveWith(child, _, _) => adopts && child == c
       case RejectWith(child, _, _) => adopts && child == c
       case _ => true
  }

  ghost predicate Local(s: Realm, s': Realm, c: Pid, adopts: bool) {
    && |s'.nodes| == |s.nodes|
    && (forall d {:trigger NodeLocal(s, s', c, adopts, d)} :: 0 <= d < |s.nodes| ==> NodeLocal(s, s', c, adopts, d))
    && (forall id {:trigger JobLocal(s, s', c, adopts, id)} :: id in s'.jobs ==> JobLocal(s, s', c, adopts, id))
  }

  lemma LocalTwice(s: Realm, m: Realm, s': Realm, c: Pid, adopts: bool)
    requires Local(s, m, c, adopts) && Local(m, s', c, adopts)
    ensures Local(s, s', c, adopts)
  {
    forall d | 0 <= d < |s.nodes|
      ensures NodeLocal(s, s', c, adopts, d)
    {
      assert NodeLocal(s, m, c, adopts, d) && NodeLocal(m, s', c, adopts, d);
    }
    forall id | id in s'.jobs
      ensures JobLocal(s, s', c, adopts, id)
    {
      assert JobLocal(m, s', c, adopts, id);
      assert id in m.jobs ==> JobLocal(s, m, c, adopts, id);
    }
  }

  lemma SettleLocal(s: Realm, c: Pid, state: State, adopts: bool)
    requires Has(s, c) && !state.Pending?
    ensures Local(s, Settle(s, c, state), c, adopts)
  {
    var s' := Settle(s, c, state);
    SettleBecomes(s, c, state);
    forall d | 0 <= d < |s.nodes|
      ensures NodeLocal(s, s', c, adopts, d)
    {
      assert NodeBecomes(s, c, state, s', d);
    }
    SettleJobs(s, c, state);
  }

  lemma ResolveLocal(s: Realm, c: Pid, v: Value, adopts: bool)
    requires Has(s, c) && Known(s, v) && (v.Ref? ==> adopts)
    ensures Local(s, Resolve(s, c, v), c, adopts)
  {
    if s.nodes[c].state.Pending? && !v.Ref? {
      SettleLocal(s, c, Resolved(v), adopts);
    }
  }

  lemma DeclineLocal(s: Realm, c: Pid, e: Value, adopts: bool)
    requires Has(s, c)
    ensures Local(s, Decline(s, c, e), c, adopts)
  {
    if s.nodes[c].state.Pending? {
      SettleLocal(s, c, Rejected(e), adopts);
    }
  }

  lemma RecordLocal(s: Realm, c: Pid, calls: seq<Call>, fate: Fate, adopts: bool)
    requires Has(s, c)
    ensures Local(s, With(s, c, s.nodes[c].(calls := calls, fate := fate)), c, adopts)
  {
  }

  lemma DequeueLocal(s: Realm, id: nat, adopts: bool)
    requires id in s.jobs && JobValid(s, s.jobs[id])
    ensures Local(s, Dequeue(s, id), Target(s, s.jobs[id]), adopts)
  {
  }

  lemma DeliverLocal(s: Realm, c: Pid, v: Value)
    requires Has(s, c) && Known(s, v)
    ensures Local(s, Deliver(s, c, v), c, true)
  {
    RecordLocal(s, c, s.nodes[c].calls, Takes(v), true);
    ResolveLocal(SetFate(s, c, Takes(v)), c, v, true);
    LocalTwice(s, SetFate(s, c, Takes(v)), Deliver(s, c, v), c, true);
  }

  lemma RefuseLocal(s: Realm, c: Pid, e: Value)
    requires Has(s, c)
    ensures Local(s, Refuse(s, c, e), c, true)
  {
    RecordLocal(s, c, s.nodes[c].calls, Fails(e), true);
    DeclineLocal(SetFate(s, c, Fails(e)), c, e, true);
    LocalTwice(s, SetFate(s, c, Fails(e)), Refuse(s, c, e), c, true);
  }

  lemma CalledLocal(s: Realm, c: Pid, call: Call)
    requires Has(s, c)
    ensures Local(s, LogCall(s, c, call), c, true)
  {
    RecordLocal(s, c, s.nodes[c].calls + [call], s.nodes[c].fate, true);
  }

  lemma LostLocal(s: Realm, c: Pid)
    requires Has(s, c)
    ensures Local(s, SetFate(s, c, Lost), c, true)
  {
    RecordLocal(s, c, s.nodes[c].calls, Lost, true);
  }

  lemma OnFulfilledLocal(s: Realm, c: Pid, reject: bool, arg: Value, first: Reply, second: Reply)
    requires Has(s, c) && KnownReply(s, first) && KnownReply(s, second)
    ensures Local(s, OnFulfilled(s, c, reject, arg, first, second), c, true)
  {
    var s' := OnFulfilled(s, c, reject, arg, first, second);
    var called := LogCall(s, c, Fulfil(arg, first));
    CalledLocal(s, c, Fulfil(arg, first));
    var thrown := Thrown(c, first);
    if thrown == [] {
      DeliverLocal(called, c, first.value);
      LocalTwice(s, called, s', c, true);
    } else if !reject {
      RefuseLocal(called, c, thrown[0]);
      LocalTwice(s, called, s', c, true);
    } else {
      var again := LogCall(called, c, Reject(thrown[0], second));
      CalledLocal(called, c, Reject(thrown[0], second));
      LocalTwice(s, called, again, c, true);
      if Thrown(c, second) == [] {
        DeliverLocal(again, c, second.value);
      } else {
        LostLocal(again, c);
      }
      LocalTwice(s, again, s', c, true);
    }
  }

  lemma OnDeclinedLocal(s: Realm, c: Pid, arg: Value, reply: Reply)
    requires Has(s, c) && KnownReply(s, reply)
    ensures Local(s, OnDeclined(s, c, arg, reply), c, true)
  {
    var called := LogCall(s, c, Reject(arg, reply));
    CalledLocal(s, c, Reject(arg, reply));
    var thrown := Thrown(c, reply);
    if thrown == [] {
      DeliverLocal(called, c, reply.value);
    } else if CarriesProperty(thrown[0]) {
      RefuseLocal(called, c, thrown[0]);
    } else {
      LostLocal(called, c);
    }
    LocalTwice(s, called, OnDeclined(s, c, arg, reply), c, true);
  }

  lemma OnPollLocal(s: Realm, c: Pid)
    requires Has(s, c) && s.nodes[c].origin.AllOf?
    ensures Local(s, OnPoll(s, c), c, true)
  {
    match Decide(s, s.nodes[c].origin.items)
    case Again =>
    case Values(values) => DeliverLocal(s, c, List(values));
    case Reason(e) => RefuseLocal(s, c, e);
  }

  /** The task of an adopting promise settles it with what is no promise. */
  lemma OnAdoptedLocal(s: Realm, c: Pid, outcome: State)
    requires Has(s, c) && !outcome.Pending? && (outcome.Resolved? ==> !outcome.value.Ref?)
    ensures match outcome
            case Resolved(v) => Local(s, OnAdopted(s, c, v), c, false)
            case Rejected(e) => Local(s, OnAdoptedRejection(s, c, e), c, false)
  {
    match outcome
    case Resolved(v) =>
      ResolveLocal(s, c, v, false);
      ResolveLocal(Resolve(s, c, v), c, Undefined, false);
      LocalTwice(s, Resolve(s, c, v), OnAdopted(s, c, v), c, false);
    case Rejected(e) =>
      DeclineLocal(s, c, e, false);
      ResolveLocal(Decline(s, c, e), c, Undefined, false);
      LocalTwice(s, Decline(s, c, e), OnAdoptedRejection(s, c, e), c, false);
  }

  /** The task of an internal promise changes the state of that promise only. */
  lemma RunInternalLocal(s: Realm, id: nat, first: Reply, second: Reply)
    requires Ok(s, {}) && Enabled(s, RunTask(id, first, second)) && Internal(s, Target(s, s.jobs[id]))
    ensures Local(s, RunJob(s, id, first, second), Target(s, s.jobs[id]), true)
  {
    var job, rest := s.jobs[id], Dequeue(s, id);
    var c, s' := Target(s, job), RunJob(s, id, first, second);
    assert JobOk(s, id);
    DequeueLocal(s, id, true);
    RestLocal(s, id, first, second);
    LocalTwice(s, rest, s', c, true);
  }

  lemma RestLocal(s: Realm, id: nat, first: Reply, second: Reply)
    requires Ok(s, {}) && Enabled(s, RunTask(id, first, second))
    ensures Local(Dequeue(s, id), RunJob(s, id, first, second), Target(s, s.jobs[id]), true)
  {
    var job, rest := s.jobs[id], Dequeue(s, id);
    var c := Target(s, job);
    assert JobOk(s, id);
    match job
    case Fulfilled(p, i, v) =>
      assert NodeOk(s, p, {});
      match s.nodes[p].subs[i] {
        case Adopt(_) =>
          OnAdoptedLocal(rest, c, Resolved(v));
          Weaker(rest, OnAdopted(rest, c, v), c);
        case Then(_, reject, _) => OnFulfilledLocal(rest, c, reject, v, first, second);
      }
    case Declined(p, i, e) =>
      match s.nodes[p].subs[i] {
        case Adopt(_) =>
          OnAdoptedLocal(rest, c, Rejected(e));
          Weaker(rest, OnAdoptedRejection(rest, c, e), c);
        case Then(_, _, _) => OnDeclinedLocal(rest, c, e, first);
      }
    case Propagate(_, _, e) => RefuseLocal(rest, c, e);
    case ResolveWith(_, _, v) => ResolveLocal(rest, c, v, true);
    case RejectWith(_, _, e) => DeclineLocal(rest, c, e, true);
    case Execute(_) =>
      var Given(v, ok) := s.nodes[c].origin;
      if ok {
        DeliverLocal(rest, c, v);
      } else {
        RefuseLocal(rest, c, v);
      }
    case Poll(_) => OnPollLocal(rest, c);
  }

  lemma Weaker(s: Realm, s': Realm, c: Pid)
    requires Local(s, s', c, false)
    ensures Local(s, s', c, true)
  {
    forall d | 0 <= d < |s.nodes|
      ensures NodeLocal(s, s', c, true, d)
    {
      assert NodeLocal(s, s', c, false, d);
    }
    forall id | id in s'.jobs
      ensures JobLocal(s, s', c, true, id)
    {
      assert JobLocal(s, s', c, false, id);
    }
  }

  /** The task of a promise made outside delivers the outcome of the promise that it adopted. */
  lemma RunOutsideLocal(s: Realm, id: nat, first: Reply, second: Reply) returns (q: Pid)
    requires Ok(s, {}) && Enabled(s, RunTask(id, first, second)) && !Internal(s, Target(s, s.jobs[id]))
    ensures var c := Target(s, s.jobs[id]); var s' := RunJob(s, id, first, second);
            && Local(s, s', c, false) && Delivers(s, s.jobs[id], c, q) && Settled(s, q)
            && (s.nodes[c].state.Pending? ==> s'.nodes[c].state == s.nodes[q].state)
  {
    var job, rest := s.jobs[id], Dequeue(s, id);
    var c := Target(s, job);
    assert JobOk(s, id);
    TargetIsReady(s, id);
    DequeueLocal(s, id, false);
    assert job.Propagate? ==> EntryOk(s, job.parent, job.index);
    match job
    case Fulfilled(p, i, v) =>
      q := p;
      assert EntryOk(s, p, i) && NodeOk(s, p, {});
      OnAdoptedLocal(rest, c, Resolved(v));
      LocalTwice(s, rest, OnAdopted(rest, c, v), c, false);
    case Declined(p, i, e) =>
      q := p;
      assert EntryOk(s, p, i);
      OnAdoptedLocal(rest, c, Rejected(e));
      LocalTwice(s, rest, OnAdoptedRejection(rest, c, e), c, false);
    case Propagate(p, i, _) =>
      assert false;
    case ResolveWith(_, from, v) =>
      q := from;
      assert NodeOk(s, from, {});
      ResolveLocal(rest, c, v, false);
      LocalTwice(s, rest, Resolve(rest, c, v), c, false);
    case RejectWith(_, from, e) =>
      q := from;
      DeclineLocal(rest, c, e, false);
      LocalTwice(s, rest, Decline(rest, c, e), c, false);
    case _ =>
  }

  // ---- the calls that a state goes back to

  /** The state of `p` is what one of these calls asked for. */
  ghost predicate Earned(s: Realm, asked: set<Step>, p: Pid)
    requires Has(s, p)
  {
    || (exists v: Value {:trigger CallResolve(p, v)} ::
          CallResolve(p, v) in asked && !v.Ref? && s.nodes[p].state == Resolved(v))
    || (exists e: Value {:trigger CallReject(p, e)} :: CallReject(p, e) in asked && s.nodes[p].state == Rejected(e))
    || (exists q: Pid {:trigger CallResolve(p, Ref(q))} ::
          CallResolve(p, Ref(q)) in asked && Settled(s, q) && s.nodes[q].state == s.nodes[p].state)
  }

  predicate IsOutside(s: Realm, p: Pid) {
    Has(s, p) && s.nodes[p].origin.Outside?
  }

  ghost predicate StateAsked(s: Realm, asked: set<Step>, p: Pid) {
    IsOutside(s, p) && Settled(s, p) ==> Earned(s, asked, p)
  }

  predicate EntryAsked(s: Realm, asked: set<Step>, q: Pid, i: nat)
    requires Has(s, q) && i < |s.nodes[q].subs|
  {
    var entry := s.nodes[q].subs[i];
    entry.Adopt? && IsOutside(s, entry.child) ==> CallResolve(entry.child, Ref(q)) in asked
  }

  predicate JobAsked(s: Realm, asked: set<Step>, id: nat)
    requires id in s.jobs
  {
    match s.jobs[id]
    case ResolveWith(p, q, _) => IsOutside(s, p) ==> CallResolve(p, Ref(q)) in asked
    case RejectWith(p, q, _) => IsOutside(s, p) ==> CallResolve(p, Ref(q)) in asked
    case _ => true
  }

  ghost predicate AllAsked(s: Realm, asked: set<Step>) {
    && (forall p {:trigger StateAsked(s, asked, p)} :: 0 <= p < |s.nodes| ==> StateAsked(s, asked, p))
    && (forall q, i {:trigger EntryAsked(s, asked, q, i)} ::
          0 <= q < |s.nodes| && 0 <= i < |s.nodes[q].subs| ==> EntryAsked(s, asked, q, i))
    && (forall id {:trigger JobAsked(s, asked, id)} :: id in s.jobs ==> JobAsked(s, asked, id))
  }

  /** What was earned stays so: settled promises keep their states, and calls are not taken back. */
  lemma EarnedStays(s: Realm, s': Realm, asked: set<Step>, more: set<Step>, p: Pid)
    requires Has(s, p) && Has(s', p) && Earned(s, asked, p) && asked <= more && s'.nodes[p].state == s.nodes[p].state
    requires forall q: Pid {:trigger Settled(s, q)} :: Settled(s, q) ==> Has(s', q) && s'.nodes[q].state == s.nodes[q].state
    ensures Earned(s', more, p)
  {
    if v: Value {:trigger CallResolve(p, v)} :| CallResolve(p, v) in asked && !v.Ref? && s.nodes[p].state == Resolved(v) {
      assert CallResolve(p, v) in more;
    } else if e: Value {:trigger CallReject(p, e)} :| CallReject(p, e) in asked && s.nodes[p].state == Rejected(e) {
      assert CallReject(p, e) in more;
    } else {
      var q: Pid {:trigger CallResolve(p, Ref(q))} :| CallResolve(p, Ref(q)) in asked && Settled(s, q) && s.nodes[q].state == s.nodes[p].state;
      assert CallResolve(p, Ref(q)) in more && s'.nodes[q].state == s.nodes[q].state;
    }
  }

  /** The step asks for this adoption. */
  predicate Asks(step: Step, p: Pid, q: Pid) {
    step == CallResolve(p, Ref(q))
  }

  /** What a step may add: entries and copying tasks of promises made outside only when it asks for them. */
  predicate NodeFits(s: Realm, s': Realm, step: Step, d: Pid)
    requires Has(s, d)
  {
    && Has(s', d) && s'.nodes[d].origin == s.nodes[d].origin && s.nodes[d].subs <= s'.nodes[d].subs
    && forall i :: |s.nodes[d].subs| <= i < |s'.nodes[d].subs| ==>
         var entry := s'.nodes[d].subs[i];
         entry.Adopt? ==> Has(s, entry.child) && (IsOutside(s, entry.child) ==> Asks(step, entry.child, d))
  }

  predicate JobFitsStep(s: Realm, s': Realm, step: Step, id: nat)
    requires id in s'.jobs
  {
    || (id in s.jobs && s'.jobs[id] == s.jobs[id])
    || match s'.jobs[id]
       case ResolveWith(p, q, _) => Has(s, p) && (IsOutside(s, p) ==> Asks(step, p, q))
       case RejectWith(p, q, _) => Has(s, p) && (IsOutside(s, p) ==> Asks(step, p, q))
       case _ => true
  }

  ghost predicate Fits(s: Realm, s': Realm, step: Step) {
    && (forall d {:trigger NodeFits(s, s', step, d)} :: 0 <= d < |s.nodes| ==> NodeFits(s, s', step, d))
    && (forall d {:trigger s'.nodes[d]} :: |s.nodes| <= d < |s'.nodes| ==>
          forall i :: 0 <= i < |s'.nodes[d].subs| ==> s'.nodes[d].subs[i].Then?)
    && (forall id {:trigger JobFitsStep(s, s', step, id)} :: id in s'.jobs ==> JobFitsStep(s, s', step, id))
  }

  lemma LocalFits(s: Realm, s': Realm, step: Step, c: Pid, adopts: bool)
    requires Local(s, s', c, adopts) && (adopts ==> Internal(s, c))
    ensures Fits(s, s', step)
  {
    forall d | 0 <= d < |s.nodes|
      ensures NodeFits(s, s', step, d)
    {
      assert NodeLocal(s, s', c, adopts, d);
    }
    forall id | id in s'.jobs
      ensures JobFitsStep(s, s', step, id)
    {
      assert JobLocal(s, s', c, adopts, id);
    }
  }

  /** A settled promise made outside, pending before the step, has got what the step or an adoption gave it. */
  predicate Brought(s: Realm, s': Realm, step: Step, p: Pid, q: Pid)
    requires Has(s, p) && Has(s', p)
  {
    || (step.CallResolve? && step.p == p && !step.value.Ref? && s'.nodes[p].state == Resolved(step.value))
    || (step.CallReject? && step.p == p && s'.nodes[p].state == Rejected(step.value))
    || (step.RunTask? && step.id in s.jobs && Delivers(s, s.jobs[step.id], p, q) && Settled(s, q)
        && s'.nodes[p].state == s.nodes[q].state)
  }

  /** A promise made outside that the step settles has got what the step or an adoption gave it. */
  predicate BroughtIfSettled(s: Realm, s': Realm, step: Step, p: Pid, q: Pid)
    requires Has(s, p)
  {
    IsOutside(s, p) && s.nodes[p].state.Pending? && Settled(s', p) ==> Brought(s, s', step, p, q)
  }

  lemma CallFits(s: Realm, step: Step, d: Pid)
    requires Ok(s, {}) && Enabled(s, step) && (step.CallResolve? || step.CallReject?) && Has(s, d)
    ensures Fits(s, Do(s, step), step) && BroughtIfSettled(s, Do(s, step), step, d, 0)
  {
    match step
    case CallResolve(p, v) =>
      if Refuses(p, v) || !s.nodes[p].state.Pending? {
        RecordLocal(s, p, s.nodes[p].calls, s.nodes[p].fate, false);
        assert Do(s, step) == s == With(s, p, s.nodes[p].(calls := s.nodes[p].calls, fate := s.nodes[p].fate));
        LocalFits(s, s, step, p, false);
      } else if v.Ref? {
        AdoptFits(s, p, v.id, d);
      } else {
        ResolveLocal(s, p, v, false);
        LocalFits(s, Do(s, step), step, p, false);
        assert NodeLocal(s, Do(s, step), p, false, d);
      }
    case CallReject(p, e) =>
      DeclineLocal(s, p, e, false);
      LocalFits(s, Do(s, step), step, p, false);
      assert NodeLocal(s, Do(s, step), p, false, d);
  }

  lemma AdoptFits(s: Realm, p: Pid, q: Pid, d: Pid)
    requires IsOutside(s, p) && Has(s, q) && p != q && s.nodes[p].state.Pending? && Has(s, d)
    ensures Fits(s, Resolve(s, p, Ref(q)), CallResolve(p, Ref(q)))
    ensures Has(Resolve(s, p, Ref(q)), d) && Resolve(s, p, Ref(q)).nodes[d].state == s.nodes[d].state
  {
  }

  lemma RunFits(s: Realm, step: Step, d: Pid) returns (q: Pid)
    requires Ok(s, {}) && Enabled(s, step) && step.RunTask? && Has(s, d)
    ensures Fits(s, Do(s, step), step) && BroughtIfSettled(s, Do(s, step), step, d, q)
  {
    var c := Target(s, s.jobs[step.id]);
    q := 0;
    if Internal(s, c) {
      RunInternalLocal(s, step.id, step.first, step.second);
      LocalFits(s, Do(s, step), step, c, true);
      assert NodeLocal(s, Do(s, step), c, true, d);
    } else {
      assert JobOk(s, step.id);
      q := RunOutsideLocal(s, step.id, step.first, step.second);
      LocalFits(s, Do(s, step), step, c, false);
      assert NodeLocal(s, Do(s, step), c, false, d);
    }
  }

  lemma GrowthFits(s: Realm, s': Realm, step: Step)
    requires |s.nodes| <= |s'.nodes|
    requires forall d :: 0 <= d < |s.nodes| ==> s'.nodes[d] == s.nodes[d].(subs := s'.nodes[d].subs) && s.nodes[d].subs <= s'.nodes[d].subs
    requires forall d, i {:trigger s'.nodes[d].subs[i]} :: 0 <= d < |s'.nodes| && 0 <= i < |s'.nodes[d].subs| ==>
               s'.nodes[d].subs[i].Then? || (d < |s.nodes| && i < |s.nodes[d].subs|)
    requires forall id :: id in s'.jobs ==> (id in s.jobs && s'.jobs[id] == s.jobs[id]) || s'.jobs[id].Execute? || s'.jobs[id].Poll?
    ensures Fits(s, s', step)
  {
    forall d | 0 <= d < |s.nodes|
      ensures NodeFits(s, s', step, d)
    {
    }
    forall id | id in s'.jobs
      ensures JobFitsStep(s, s', step, id)
    {
    }
  }

  /** A step that makes promises settles none. */
  lemma MakeFits(s: Realm, step: Step, d: Pid)
    requires Ok(s, {}) && Enabled(s, step) && !step.RunTask? && !step.CallResolve? && !step.CallReject? && Has(s, d)
    ensures Fits(s, Do(s, step), step)
    ensures Has(Do(s, step), d) && Do(s, step).nodes[d].state == s.nodes[d].state
  {
    NextIsFree(s, {});
    if step.Subscribe? {
      ThenFits(s, step.p, step.fulfil, step.reject, d);
    } else {
      GrowthFits(s, Do(s, step), step);
    }
  }

  lemma ThenFits(s: Realm, p: Pid, fulfil: bool, reject: bool, d: Pid)
    requires Ok(s, {}) && Has(s, p) && Has(s, d)
    ensures var s' := ThenStep(s, p, fulfil, reject);
            Fits(s, s', Subscribe(p, fulfil, reject)) && Has(s', d) && s'.nodes[d].state == s.nodes[d].state
  {
    NextIsFree(s, {});
    GrowthFits(s, ThenStep(s, p, fulfil, reject), Subscribe(p, fulfil, reject));
  }

  lemma StepFits(s: Realm, step: Step, d: Pid) returns (q: Pid)
    requires Ok(s, {}) && Enabled(s, step) && Has(s, d)
    ensures Fits(s, Do(s, step), step) && BroughtIfSettled(s, Do(s, step), step, d, q)
  {
    q := 0;
    if step.RunTask? {
      q := RunFits(s, step, d);
    } else if step.CallResolve? || step.CallReject? {
      CallFits(s, step, d);
    } else {
      MakeFits(s, step, d);
    }
  }

  // ---- over whole runs

  lemma StatesStay(s: Realm, step: Step, q: Pid)
    requires Ok(s, {}) && Enabled(s, step) && Settled(s, q)
    ensures Settled(Do(s, step), q) && Do(s, step).nodes[q].state == s.nodes[q].state
  {
    var settled := StepShape(s, step);
    assert Grows(s, Do(s, step), q, settled);
  }

  lemma BroughtIsEarned(s: Realm, step: Step, asked: set<Step>, p: Pid, q: Pid)
    requires Ok(s, {}) && Enabled(s, step) && AllAsked(s, asked) && IsOutside(s, p) && Settled(Do(s, step), p)
    requires Brought(s, Do(s, step), step, p, q)
    ensures Earned(Do(s, step), asked + {step}, p)
  {
    var more := asked + {step};
    if step.RunTask? {
      var id := step.id;
      StatesStay(s, step, q);
      assert JobOk(s, id) && JobAsked(s, asked, id);
      if s.jobs[id].Fulfilled? || s.jobs[id].Declined? {
        assert EntryAsked(s, asked, q, s.jobs[id].index);
      }
      assert CallResolve(p, Ref(q)) in more;
    } else if step.CallResolve? {
      assert CallResolve(p, step.value) in more;
    } else {
      assert CallReject(p, step.value) in more;
    }
  }

  lemma StepKeepsState(s: Realm, step: Step, asked: set<Step>, p: Pid)
    requires Ok(s, {}) && Enabled(s, step) && AllAsked(s, asked) && Has(s, p)
    ensures StateAsked(Do(s, step), asked + {step}, p)
  {
    var s' := Do(s, step);
    if IsOutside(s', p) && Settled(s', p) {
      var q := StepFits(s, step, p);
      assert NodeFits(s, s', step, p);
      if Settled(s, p) {
        assert StateAsked(s, asked, p);
        StatesStay(s, step, p);
        forall q: Pid | Settled(s, q)
          ensures Has(s', q) && s'.nodes[q].state == s.nodes[q].state
        {
          StatesStay(s, step, q);
        }
        EarnedStays(s, s', asked, asked + {step}, p);
      } else {
        BroughtIsEarned(s, step, asked, p, q);
      }
    }
  }

  lemma StepKeepsEntry(s: Realm, step: Step, asked: set<Step>, q: Pid, i: nat)
    requires Ok(s, {}) && Enabled(s, step) && AllAsked(s, asked) && Fits(s, Do(s, step), step)
    requires Has(Do(s, step), q) && i < |Do(s, step).nodes[q].subs|
    ensures EntryAsked(Do(s, step), asked + {step}, q, i)
  {
    var s' := Do(s, step);
    if q < |s.nodes| {
      assert NodeFits(s, s', step, q);
      var entry := s'.nodes[q].subs[i];
      if i < |s.nodes[q].subs| {
        assert EntryAsked(s, asked, q, i) && EntryOk(s, q, i);
      }
      if entry.Adopt? {
        assert NodeFits(s, s', step, entry.child);
      }
    } else {
      assert s'.nodes[q].subs[i].Then?;
    }
  }

  lemma StepKeepsJob(s: Realm, step: Step, asked: set<Step>, id: nat)
    requires Ok(s, {}) && Enabled(s, step) && AllAsked(s, asked) && Fits(s, Do(s, step), step) && id in Do(s, step).jobs
    ensures JobAsked(Do(s, step), asked + {step}, id)
  {
    var s' := Do(s, step);
    assert JobFitsStep(s, s', step, id);
    assert id in s.jobs ==> JobAsked(s, asked, id) && JobOk(s, id);
    match s'.jobs[id]
    case ResolveWith(p, q, _) => assert Has(s, p) && NodeFits(s, s', step, p);
    case RejectWith(p, q, _) => assert Has(s, p) && NodeFits(s, s', step, p);
    case _ =>
  }

  lemma StepKeepsAsked(s: Realm, step: Step, asked: set<Step>)
    requires Ok(s, {}) && Enabled(s, step) && AllAsked(s, asked)
    ensures AllAsked(Do(s, step), asked + {step})
  {
    var s' := Do(s, step);
    var settled := StepShape(s, step);
    AlwaysFits(s, step);
    forall p | 0 <= p < |s'.nodes|
      ensures StateAsked(s', asked + {step}, p)
    {
      if p < |s.nodes| {
        StepKeepsState(s, step, asked, p);
      }
    }
    forall q, i | 0 <= q < |s'.nodes| && 0 <= i < |s'.nodes[q].subs|
      ensures EntryAsked(s', asked + {step}, q, i)
    {
      StepKeepsEntry(s, step, asked, q, i);
    }
    forall id | id in s'.jobs
      ensures JobAsked(s', asked + {step}, id)
    {
      StepKeepsJob(s, step, asked, id);
    }
  }

  lemma AlwaysFits(s: Realm, step: Step)
    requires Ok(s, {}) && Enabled(s, step)
    ensures Fits(s, Do(s, step), step)
  {
    if s.nodes != [] {
      var _ := StepFits(s, step, 0);
    } else {
      NextIsFree(s, {});
      NoTasksWithoutPromises(s);
      GrowthFits(s, Do(s, step), step);
    }
  }

  lemma NoTasksWithoutPromises(s: Realm)
    requires Ok(s, {}) && s.nodes == []
    ensures s.jobs == map[]
  {
    forall id
      ensures id !in s.jobs
    {
      assert id in s.jobs ==> JobOk(s, id);
    }
  }

  function Made(steps: seq<Step>): set<Step> {
    if steps == [] then {} else {steps[0]} + Made(steps[1..])
  }

  lemma {:induction false} RunKeepsAsked(s: Realm, steps: seq<Step>, s': Realm, asked: set<Step>)
    requires Ok(s, {}) && Runs(s, steps, s') && AllAsked(s, asked)
    ensures AllAsked(s', asked + Made(steps))
    decreases |steps|
  {
    if steps == [] {
      assert asked + {} == asked;
    } else {
      StepKeepsAsked(s, steps[0], asked);
      StepOk(s, steps[0]);
      RunKeepsAsked(Do(s, steps[0]), steps[1..], s', asked + {steps[0]});
      assert asked + {steps[0]} + Made(steps[1..]) == asked + Made(steps);
    }
  }

  /**
   * Over every run a settled promise made with `new Promise` has the value or reason of a call of its
   * own resolving functions in the run, or the outcome of a promise that such a call resolved it with.
   */
  lemma OutsideStateWasAskedFor(s: Realm, steps: seq<Step>, s': Realm, p: Pid)
    requires Init(s) && Runs(s, steps, s') && IsOutside(s', p) && Settled(s', p)
    ensures Earned(s', Made(steps), p)
  {
    InitOk(s);
    RunKeepsAsked(s, steps, s', {});
    assert StateAsked(s', Made(steps), p) by {
      assert {} + Made(steps) == Made(steps);
    }
  }
}
