/** Which replies of handlers a promise's recorded calls hold. */
module PromiseReplies {
  import opened Promises
  import opened PromiseInvariant
  import opened PromiseSteps
  import opened PromiseTheorems
  import opened PromiseOutside

  lemma ResolveKeepsCalls(s: Realm, p: Pid, v: Value, d: Pid)
    requires Has(s, p) && Known(s, v) && Has(s, d)
    ensures Has(Resolve(s, p, v), d) && Resolve(s, p, v).nodes[d].calls == s.nodes[d].calls
  {
    if s.nodes[p].state.Pending? && !v.Ref? {
      SettleNode(s, p, Resolved(v), d);
    }
  }

  lemma DeclineKeepsCalls(s: Realm, p: Pid, e: Value, d: Pid)
    requires Has(s, p) && Has(s, d)
    ensures Has(Decline(s, p, e), d) && Decline(s, p, e).nodes[d].calls == s.nodes[d].calls
  {
    if s.nodes[p].state.Pending? {
      SettleNode(s, p, Rejected(e), d);
    }
  }

  /** What the task of a subscriber records of its handlers, given what they are going to reply. */
  predicate Replied(job: Job, first: Reply, second: Reply, calls: seq<Call>) {
    match job
    case Fulfilled(_, _, v) =>
      || calls == [Fulfil(v, first)]
      || (|calls| == 2 && calls[0] == Fulfil(v, first) && calls[1].Reject? && calls[1].reply == second)
    case Declined(_, _, e) => calls == [Reject(e, first)]
    case _ => false
  }

  lemma FulfilledCalls(s: Realm, c: Pid, reject: bool, arg: Value, first: Reply, second: Reply, d: Pid)
    requires Has(s, c) && KnownReply(s, first) && KnownReply(s, second) && Has(s, d) && s.nodes[c].calls == []
    ensures var s' := OnFulfilled(s, c, reject, arg, first, second);
            && Has(s', d)
            && (if d == c then Replied(Fulfilled(0, 0, arg), first, second, s'.nodes[d].calls)
                else s'.nodes[d].calls == s.nodes[d].calls)
  {
    var called := LogCall(s, c, Fulfil(arg, first));
    var thrown := Thrown(c, first);
    if thrown == [] {
      ResolveKeepsCalls(SetFate(called, c, Takes(first.value)), c, first.value, d);
    } else if !reject {
      DeclineKeepsCalls(SetFate(called, c, Fails(thrown[0])), c, thrown[0], d);
    } else if Thrown(c, second) == [] {
      var again := LogCall(called, c, Reject(thrown[0], second));
      ResolveKeepsCalls(SetFate(again, c, Takes(second.value)), c, second.value, d);
    }
  }

  lemma DeclinedCalls(s: Realm, c: Pid, arg: Value, reply: Reply, second: Reply, d: Pid)
    requires Has(s, c) && KnownReply(s, reply) && Has(s, d) && s.nodes[c].calls == []
    ensures var s' := OnDeclined(s, c, arg, reply);
            && Has(s', d)
            && (if d == c then Replied(Declined(0, 0, arg), reply, second, s'.nodes[d].calls)
                else s'.nodes[d].calls == s.nodes[d].calls)
  {
    var called := LogCall(s, c, Reject(arg, reply));
    var thrown := Thrown(c, reply);
    if thrown == [] {
      ResolveKeepsCalls(SetFate(called, c, Takes(reply.value)), c, reply.value, d);
    } else if CarriesProperty(thrown[0]) {
      DeclineKeepsCalls(SetFate(called, c, Fails(thrown[0])), c, thrown[0], d);
    }
  }

  lemma AdoptedCalls(s: Realm, c: Pid, outcome: State, d: Pid)
    requires Has(s, c) && Has(s, d) && !outcome.Pending? && (outcome.Resolved? ==> !outcome.value.Ref?)
    ensures var s' := match outcome case Resolved(v) => OnAdopted(s, c, v) case Rejected(e) => OnAdoptedRejection(s, c, e);
            Has(s', d) && s'.nodes[d].calls == s.nodes[d].calls
  {
    match outcome
    case Resolved(v) =>
      ResolveKeepsCalls(s, c, v, d);
      ResolveKeepsCalls(Resolve(s, c, v), c, Undefined, d);
    case Rejected(e) =>
      DeclineKeepsCalls(s, c, e, d);
      ResolveKeepsCalls(Decline(s, c, e), c, Undefined, d);
  }

  /** A handler's task: its target's calls are recorded, nobody else's. */
  predicate CallsAfter(s: Realm, step: Step, c: Pid)
    requires Enabled(s, step) && Has(s, c)
  {
    var s' := Do(s, step);
    && Has(s', c)
    && (s'.nodes[c].calls == s.nodes[c].calls
        || (step.RunTask? && Target(s, s.jobs[step.id]) == c && s.nodes[c].calls == []
            && Replied(s.jobs[step.id], step.first, step.second, s'.nodes[c].calls)))
  }

  lemma RunSubscriberCalls(s: Realm, step: Step, c: Pid)
    requires Ok(s, {}) && Enabled(s, step) && Has(s, c) && step.RunTask?
    requires s.jobs[step.id].Fulfilled? || s.jobs[step.id].Declined?
    ensures CallsAfter(s, step, c)
  {
    var job, rest := s.jobs[step.id], Dequeue(s, step.id);
    var t := Target(s, job);
    var outcome := if job.Fulfilled? then Resolved(job.value) else Rejected(job.reason);
    assert JobOk(s, step.id) && NodeOk(s, job.parent, {});
    if s.nodes[job.parent].subs[job.index].Adopt? {
      AdoptedCalls(rest, t, outcome, c);
    } else {
      ChildIsReady(s, step.id, job.parent, job.index);
      match job
      case Fulfilled(p, i, v) => FulfilledCalls(rest, t, s.nodes[p].subs[i].reject, v, step.first, step.second, c);
      case Declined(p, i, e) => DeclinedCalls(rest, t, e, step.first, step.second, c);
    }
  }

  lemma RunOtherCalls(s: Realm, step: Step, c: Pid)
    requires Ok(s, {}) && Enabled(s, step) && Has(s, c) && step.RunTask?
    requires !s.jobs[step.id].Fulfilled? && !s.jobs[step.id].Declined?
    ensures Has(Do(s, step), c) && Do(s, step).nodes[c].calls == s.nodes[c].calls
  {
    var job, rest := s.jobs[step.id], Dequeue(s, step.id);
    var t := Target(s, job);
    assert JobOk(s, step.id);
    match job
    case Propagate(_, _, e) => DeclineKeepsCalls(SetFate(rest, t, Fails(e)), t, e, c);
    case ResolveWith(_, _, v) => ResolveKeepsCalls(rest, t, v, c);
    case RejectWith(_, _, e) => DeclineKeepsCalls(rest, t, e, c);
    case Execute(_) =>
      var Given(v, ok) := s.nodes[t].origin;
      if ok {
        ResolveKeepsCalls(SetFate(rest, t, Takes(v)), t, v, c);
      } else {
        DeclineKeepsCalls(SetFate(rest, t, Fails(v)), t, v, c);
      }
    case Poll(_) => PollKeepsCalls(rest, t, c);
  }

  lemma PollKeepsCalls(s: Realm, t: Pid, c: Pid)
    requires Has(s, t) && s.nodes[t].origin.AllOf? && Has(s, c)
    ensures Has(OnPoll(s, t), c) && OnPoll(s, t).nodes[c].calls == s.nodes[c].calls
  {
    match Decide(s, s.nodes[t].origin.items)
    case Again =>
    case Values(values) => ResolveKeepsCalls(SetFate(s, t, Takes(List(values))), t, List(values), c);
    case Reason(e) => DeclineKeepsCalls(SetFate(s, t, Fails(e)), t, e, c);
  }

  lemma StepCalls(s: Realm, step: Step, c: Pid)
    requires Ok(s, {}) && Enabled(s, step) && Has(s, c)
    ensures CallsAfter(s, step, c)
  {
    match step
    case CallResolve(p, v) =>
      if !Refuses(p, v) {
        ResolveKeepsCalls(s, p, v, c);
      }
    case CallReject(p, e) => DeclineKeepsCalls(s, p, e, c);
    case RunTask(id, _, _) =>
      if s.jobs[id].Fulfilled? || s.jobs[id].Declined? {
        RunSubscriberCalls(s, step, c);
      } else {
        RunOtherCalls(s, step, c);
      }
    case _ =>
  }

  lemma NewHaveNoCalls(s: Realm, step: Step, c: Pid)
    requires Ok(s, {}) && Enabled(s, step) && |s.nodes| <= c < |Do(s, step).nodes|
    ensures Do(s, step).nodes[c].calls == []
  {
    if step.CallResolve? || step.CallReject? || step.RunTask? {
      SameNumber(s, step);
    }
  }

  lemma SameNumber(s: Realm, step: Step)
    requires Ok(s, {}) && Enabled(s, step) && (step.CallResolve? || step.CallReject? || step.RunTask?)
    ensures |Do(s, step).nodes| == |s.nodes|
  {
    match step
    case CallResolve(p, v) =>
      if !Refuses(p, v) {
        ResolveLocal(s, p, v, true);
      }
    case CallReject(p, e) => DeclineLocal(s, p, e, true);
    case RunTask(id, first, second) =>
      DequeueLocal(s, id, true);
      RestLocal(s, id, first, second);
  }

  /**
   * The recorded calls of a promise come from one task, the one that served its entry: the argument is
   * the parent's outcome and the replies are those that the handlers gave in that task.
   */
  lemma {:induction false} CallsCameFromTask(s: Realm, steps: seq<Step>, s': Realm, c: Pid) returns (k: nat, m: Realm)
    requires Ok(s, {}) && Runs(s, steps, s') && Has(s', c) && s'.nodes[c].calls != []
    requires Has(s, c) ==> s.nodes[c].calls == []
    ensures k < |steps| && Runs(s, steps[..k], m) && steps[k].RunTask? && Enabled(m, steps[k])
    ensures Target(m, m.jobs[steps[k].id]) == c
    ensures Replied(m.jobs[steps[k].id], steps[k].first, steps[k].second, s'.nodes[c].calls)
    decreases |steps|
  {
    var step, n := steps[0], Do(s, steps[0]);
    StepOk(s, step);
    if Has(s, c) {
      StepCalls(s, step, c);
    } else if Has(n, c) {
      NewHaveNoCalls(s, step, c);
    }
    if Has(n, c) && n.nodes[c].calls != [] {
      CallsStay(n, steps[1..], s', c);
      k, m := 0, s;
    } else {
      var j;
      j, m := CallsCameFromTask(n, steps[1..], s', c);
      k := j + 1;
      assert steps[..k][1..] == steps[1..][..j];
    }
  }

  lemma {:induction false} CallsStay(s: Realm, steps: seq<Step>, s': Realm, c: Pid)
    requires Ok(s, {}) && Runs(s, steps, s') && Has(s, c) && s.nodes[c].calls != []
    ensures Has(s', c) && s'.nodes[c].calls == s.nodes[c].calls
    decreases |steps|
  {
    if steps != [] {
      StepCalls(s, steps[0], c);
      StepOk(s, steps[0]);
      CallsStay(Do(s, steps[0]), steps[1..], s', c);
    }
  }
}
