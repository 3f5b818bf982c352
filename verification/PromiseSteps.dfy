/** Every step of a program keeps the invariant of the promise graph. */
module PromiseSteps {
  import opened Promises
  import opened PromiseInvariant

  predicate NodeKept(s: Realm, s': Realm, d: Pid, touched: set<Pid>)
    requires Has(s, d)
  {
    && Has(s', d) && s'.nodes[d].state == s.nodes[d].state && s'.nodes[d].origin == s.nodes[d].origin
    && s.nodes[d].subs <= s'.nodes[d].subs && s'.nodes[d].broadcasts == s.nodes[d].broadcasts
    && s'.nodes[d].waited == s.nodes[d].waited
    && if d in touched then s.nodes[d].fate == Open || s'.nodes[d].fate == s.nodes[d].fate
       else
         && s'.nodes[d].where == s.nodes[d].where && s'.nodes[d].fate == s.nodes[d].fate
         && s'.nodes[d].calls == s.nodes[d].calls
  }

  predicate JobKept(s: Realm, s': Realm, id: nat) {
    id in s.jobs && id in s'.jobs && s'.jobs[id] == s.jobs[id]
  }

  /** Nothing is settled and nothing goes away; only `touched` promises change place, fate or calls. */
  ghost predicate Extends(s: Realm, s': Realm, touched: set<Pid>) {
    && s.next <= s'.next
    && (forall d {:trigger s'.nodes[d]} {:trigger s.nodes[d]} :: 0 <= d < |s.nodes| ==> NodeKept(s, s', d, touched))
    && (forall id {:trigger s.jobs[id]} {:trigger id in s.jobs} :: id in s.jobs ==> JobKept(s, s', id))
    && |s.nodes| <= |s'.nodes|
  }

  lemma TargetKept(s: Realm, s': Realm, touched: set<Pid>, job: Job)
    requires Extends(s, s', touched) && JobValid(s, job)
    ensures JobValid(s', job) && Target(s', job) == Target(s, job)
  {
    match job
    case Fulfilled(p, i, _) => assert NodeKept(s, s', p, touched);
    case Declined(p, i, _) => assert NodeKept(s, s', p, touched);
    case Propagate(p, i, _) => assert NodeKept(s, s', p, touched);
    case Execute(c) => assert NodeKept(s, s', c, touched);
    case Poll(c) => assert NodeKept(s, s', c, touched);
    case _ =>
  }

  lemma PlaceKept(s: Realm, s': Realm, d: Pid, touched: set<Pid>, busy: set<Pid>, busy': set<Pid>)
    requires Extends(s, s', touched) && Has(s, d) && d !in touched && PlaceOk(s, d, busy)
    requires d !in busy' && d !in busy
    ensures PlaceOk(s', d, busy')
  {
    assert NodeKept(s, s', d, touched);
    if s.nodes[d].where.InJob? && !s.nodes[d].origin.Outside? {
      var id := s.nodes[d].where.id;
      TargetKept(s, s', touched, s.jobs[id]);
      assert JobKept(s, s', id);
    }
    if s.nodes[d].where.At? && !s.nodes[d].origin.Outside? {
      assert NodeKept(s, s', s.nodes[d].where.parent, touched);
    }
  }

  lemma FateKept(s: Realm, s': Realm, d: Pid, touched: set<Pid>)
    requires Extends(s, s', touched) && Has(s, d) && FateOk(s, d)
    requires Has(s', d) && (s'.nodes[d].fate == s.nodes[d].fate || d !in touched)
    ensures FateOk(s', d)
  {
    assert NodeKept(s, s', d, touched);
  }

  lemma OriginKept(s: Realm, s': Realm, d: Pid, touched: set<Pid>)
    requires Extends(s, s', touched) && Has(s, d) && OriginOk(s, d) && d !in touched
    ensures OriginOk(s', d)
  {
    assert NodeKept(s, s', d, touched);
    match s.nodes[d].origin
    case ChildOf(p, _, _) => assert NodeKept(s, s', p, touched);
    case AllOf(items) =>
      ItemsKept(s, s', items, touched);
    case _ =>
  }

  /** A verdict on a list of promises stays true. */
  lemma ItemsKept(s: Realm, s': Realm, items: seq<Value>, touched: set<Pid>)
    requires Extends(s, s', touched)
    ensures forall i :: 0 <= i < |items| && Known(s, items[i]) ==> Known(s', items[i])
    ensures forall values :: Collects(s, items, values) ==> Collects(s', items, values)
    ensures forall reason :: BlamesMember(s, items, reason) ==> BlamesMember(s', items, reason)
  {
    forall values | Collects(s, items, values)
      ensures Collects(s', items, values)
    {
      forall i | 0 <= i < |items| && items[i].Ref?
        ensures Has(s', items[i].id) && s'.nodes[items[i].id].state == Resolved(values[i])
      {
        assert NodeKept(s, s', items[i].id, touched);
      }
    }
    forall reason | BlamesMember(s, items, reason)
      ensures BlamesMember(s', items, reason)
    {
      if Undefined !in items {
        var i :| 0 <= i < |items| && items[i].Ref? && Has(s, items[i].id) && s.nodes[items[i].id].state == Rejected(reason);
        assert NodeKept(s, s', items[i].id, touched);
      }
    }
  }

  /** The promise in the middle of its task has no entry and no other task waiting for it. */
  lemma EntryKept(s: Realm, s': Realm, p: Pid, i: nat, touched: set<Pid>)
    requires Ok(s, touched) && Extends(s, s', touched)
    requires Has(s, p) && i < |s.nodes[p].subs|
    ensures Has(s', p) && i < |s'.nodes[p].subs| && EntryOk(s', p, i)
  {
    assert EntryOk(s, p, i);
    var c := s.nodes[p].subs[i].child;
    assert NodeKept(s, s', p, touched) && NodeKept(s, s', c, touched);
    assert NodeOk(s, c, touched);
  }

  lemma JobStays(s: Realm, s': Realm, id: nat, touched: set<Pid>)
    requires Ok(s, touched) && Extends(s, s', touched) && id in s.jobs && forall d :: d in touched ==> Internal(s, d)
    ensures id in s'.jobs && JobOk(s', id)
  {
    assert JobOk(s, id) && JobKept(s, s', id);
    var job := s.jobs[id];
    var c := Target(s, job);
    assert c !in touched by {
      assert NodeOk(s, c, touched);
    }
    TargetKept(s, s', touched, job);
    assert NodeOk(s, c, touched);
    assert NodeKept(s, s', c, touched);
    match job
    case Fulfilled(p, i, _) => assert NodeKept(s, s', p, touched);
    case Declined(p, i, _) => assert NodeKept(s, s', p, touched);
    case Propagate(p, i, _) => assert NodeKept(s, s', p, touched);
    case ResolveWith(_, q, _) => assert NodeKept(s, s', q, touched);
    case RejectWith(_, q, _) => assert NodeKept(s, s', q, touched);
    case _ =>
  }

  /** `busy` when the target of the running task is tracked, nothing otherwise. */
  function BusyWith(s: Realm, c: Pid): set<Pid> {
    if Internal(s, c) then {c} else {}
  }

  /** What a step that settles nothing still has to show: the touched promises and whatever is new. */
  lemma ExtensionOk(s: Realm, s': Realm, touched: set<Pid>, busy: set<Pid>)
    requires Ok(s, touched) && Extends(s, s', touched) && busy <= touched
    requires forall d :: d in touched ==> Internal(s, d)
    requires forall d {:trigger NodeOk(s', d, busy)} :: d in touched || |s.nodes| <= d < |s'.nodes| ==>
               Has(s', d) && NodeOk(s', d, busy)
    requires forall p, i {:trigger EntryOk(s', p, i)} :: 0 <= p < |s'.nodes| && 0 <= i < |s'.nodes[p].subs| ==>
               (p < |s.nodes| && i < |s.nodes[p].subs|) || EntryOk(s', p, i)
    requires forall id {:trigger JobOk(s', id)} :: id in s'.jobs ==> id in s.jobs || JobOk(s', id)
    ensures Ok(s', busy)
  {
    forall d | 0 <= d < |s.nodes| && d !in touched
      ensures NodeOk(s', d, busy)
    {
      assert NodeOk(s, d, touched);
      PlaceKept(s, s', d, touched, touched, busy);
      FateKept(s, s', d, touched);
      OriginKept(s, s', d, touched);
    }
    forall p, i | 0 <= p < |s'.nodes| && 0 <= i < |s'.nodes[p].subs|
      ensures EntryOk(s', p, i)
    {
      if p < |s.nodes| && i < |s.nodes[p].subs| {
        EntryKept(s, s', p, i, touched);
      }
    }
    forall id | id in s'.jobs
      ensures JobOk(s', id)
    {
      if id in s.jobs {
        JobStays(s, s', id, touched);
      }
    }
  }

  /** No task has the next number yet. */
  lemma NextIsFree(s: Realm, busy: set<Pid>)
    requires Ok(s, busy)
    ensures s.next !in s.jobs
  {
    assert s.next in s.jobs ==> JobOk(s, s.next);
  }

  ghost predicate MayAdopt(s: Realm, c: Pid, q: Pid) {
    && Has(s, c) && Has(s, q) && c != q && s.nodes[c].state.Pending?
    && Ok(s, BusyWith(s, c)) && (Internal(s, c) ==> s.nodes[c].fate == Takes(Ref(q)))
  }

  /** Adopting a settled promise schedules one task that copies its outcome. */
  lemma AdoptSettledOk(s: Realm, c: Pid, q: Pid)
    requires MayAdopt(s, c, q) && !s.nodes[q].state.Pending?
    ensures Ok(Resolve(s, c, Ref(q)), {})
  {
    var s' := Resolve(s, c, Ref(q));
    assert NodeOk(s, c, BusyWith(s, c));
    assert NodeOk(s, q, BusyWith(s, c));
    AdoptExtends(s, c, q);
    FateKept(s, s', c, BusyWith(s, c));
    AdoptOrigin(s, s', c);
    ExtensionOk(s, s', BusyWith(s, c), {});
  }

  lemma AdoptExtends(s: Realm, c: Pid, q: Pid)
    requires MayAdopt(s, c, q)
    ensures Extends(s, Resolve(s, c, Ref(q)), BusyWith(s, c))
  {
    var s' := Resolve(s, c, Ref(q));
    NextIsFree(s, BusyWith(s, c));
    forall d | 0 <= d < |s.nodes|
      ensures NodeKept(s, s', d, BusyWith(s, c))
    {
    }
    forall id | id in s.jobs
      ensures JobKept(s, s', id)
    {
    }
  }

  /** Only the place of `c` changed, so its fate still fits its origin. */
  lemma AdoptOrigin(s: Realm, s': Realm, c: Pid)
    requires Extends(s, s', BusyWith(s, c)) && Has(s, c) && OriginOk(s, c)
    requires s'.nodes[c].fate == s.nodes[c].fate && s'.nodes[c].calls == s.nodes[c].calls
    ensures OriginOk(s', c)
  {
    assert NodeKept(s, s', c, BusyWith(s, c));
    match s.nodes[c].origin
    case ChildOf(p, _, _) => assert NodeKept(s, s', p, BusyWith(s, c));
    case AllOf(items) => ItemsKept(s, s', items, BusyWith(s, c));
    case _ =>
  }

  /** Adopting a pending promise leaves one entry with it. */
  lemma AdoptPendingOk(s: Realm, c: Pid, q: Pid)
    requires MayAdopt(s, c, q) && s.nodes[q].state.Pending?
    ensures Ok(Resolve(s, c, Ref(q)), {})
  {
    var s' := Resolve(s, c, Ref(q));
    assert NodeOk(s, c, BusyWith(s, c));
    AdoptExtends(s, c, q);
    FateKept(s, s', c, BusyWith(s, c));
    AdoptOrigin(s, s', c);
    ExtensionOk(s, s', BusyWith(s, c), {});
  }

  /** broadcastResolve keeps the invariant, whichever of its branches it takes. */
  lemma ResolveOk(s: Realm, c: Pid, v: Value)
    requires Has(s, c) && Known(s, v) && !Refuses(c, v) && Ok(s, BusyWith(s, c)) && s.nodes[c].state.Pending?
    requires Internal(s, c) ==> s.nodes[c].fate == Takes(v) || (!v.Ref? && Earns(s, s.nodes[c].fate, v))
    ensures Ok(Resolve(s, c, v), {})
  {
    if !v.Ref? {
      SettleKeepsOk(s, c, Resolved(v), BusyWith(s, c));
    } else if s.nodes[v.id].state.Pending? {
      AdoptPendingOk(s, c, v.id);
    } else {
      AdoptSettledOk(s, c, v.id);
    }
  }

  lemma DeclineOk(s: Realm, c: Pid, reason: Value)
    requires Has(s, c) && Ok(s, BusyWith(s, c)) && s.nodes[c].state.Pending? && Known(s, reason)
    requires Internal(s, c) ==> EarnsRejection(s, s.nodes[c].fate, reason)
    ensures Ok(Decline(s, c, reason), {})
  {
    SettleKeepsOk(s, c, Rejected(reason), BusyWith(s, c));
  }

  /** Recording what the running task decided for its promise. */
  lemma RecordOk(s: Realm, c: Pid, calls: seq<Call>, fate: Fate)
    requires Internal(s, c) && Ok(s, {c}) && s.nodes[c].fate == Open
    requires OriginOk(With(s, c, s.nodes[c].(calls := calls, fate := fate)), c)
    requires fate.Takes? ==> Known(s, fate.value)
    ensures var s' := With(s, c, s.nodes[c].(calls := calls, fate := fate));
            Ok(s', {c}) && s'.nodes[c].state.Pending? && (fate == Lost ==> Ok(s', {}))
  {
    var s' := With(s, c, s.nodes[c].(calls := calls, fate := fate));
    assert NodeOk(s, c, {c});
    forall d | 0 <= d < |s.nodes|
      ensures NodeKept(s, s', d, {c})
    {
    }
    forall id | id in s.jobs
      ensures JobKept(s, s', id)
    {
    }
    ExtensionOk(s, s', {c}, {c});
    if fate == Lost {
      ExtensionOk(s, s', {c}, {});
    }
  }

  // ---- running a task

  /** Only its own target points at a task. */
  lemma DequeuePlace(s: Realm, id: nat, d: Pid)
    requires Ok(s, {}) && id in s.jobs && JobValid(s, s.jobs[id]) && Has(s, d)
    ensures PlaceOk(Dequeue(s, id), d, BusyWith(s, Target(s, s.jobs[id])))
  {
    var s' := Dequeue(s, id);
    var c := Target(s, s.jobs[id]);
    assert NodeOk(s, d, {}) && JobOk(s, id);
    var where := s.nodes[d].where;
    if where.InJob? && Internal(s, d) && d != c {
      assert JobOk(s, where.id);
      DequeueTarget(s, id, s.jobs[where.id]);
    }
  }

  lemma DequeueTarget(s: Realm, id: nat, job: Job)
    requires id in s.jobs && JobValid(s, s.jobs[id]) && JobValid(s, job)
    ensures JobValid(Dequeue(s, id), job) && Target(Dequeue(s, id), job) == Target(s, job)
  {
  }

  lemma DequeueNode(s: Realm, id: nat, d: Pid)
    requires Ok(s, {}) && id in s.jobs && JobValid(s, s.jobs[id]) && Has(s, d)
    ensures FateOk(Dequeue(s, id), d) && OriginOk(Dequeue(s, id), d)
  {
    assert NodeOk(s, d, {});
    DequeueOrigin(s, id, d);
  }

  lemma DequeueOrigin(s: Realm, id: nat, d: Pid)
    requires id in s.jobs && JobValid(s, s.jobs[id]) && Has(s, d) && OriginOk(s, d)
    ensures OriginOk(Dequeue(s, id), d)
  {
  }

  lemma DequeueEntry(s: Realm, id: nat, p: Pid, i: nat)
    requires Ok(s, {}) && id in s.jobs && JobValid(s, s.jobs[id]) && Has(s, p) && i < |s.nodes[p].subs|
    ensures EntryOk(Dequeue(s, id), p, i)
  {
    assert EntryOk(s, p, i) && JobOk(s, id);
  }

  lemma DequeueJob(s: Realm, id: nat, other: nat)
    requires Ok(s, {}) && id in s.jobs && JobValid(s, s.jobs[id]) && other in s.jobs && other != id
    ensures JobOk(Dequeue(s, id), other)
  {
    assert JobOk(s, other) && JobOk(s, id);
    DequeueTarget(s, id, s.jobs[other]);
  }

  /** Taking a task out of the queue leaves its target in the middle of its one chance. */
  lemma DequeueOk(s: Realm, id: nat)
    requires Ok(s, {}) && id in s.jobs && JobValid(s, s.jobs[id])
    ensures Ok(Dequeue(s, id), BusyWith(s, Target(s, s.jobs[id])))
  {
    var s' := Dequeue(s, id);
    forall d | 0 <= d < |s'.nodes|
      ensures NodeOk(s', d, BusyWith(s, Target(s, s.jobs[id])))
    {
      DequeuePlace(s, id, d);
      DequeueNode(s, id, d);
    }
    forall p, i | 0 <= p < |s'.nodes| && 0 <= i < |s'.nodes[p].subs|
      ensures EntryOk(s', p, i)
    {
      DequeueEntry(s, id, p, i);
    }
    forall other | other in s'.jobs
      ensures JobOk(s', other)
    {
      DequeueJob(s, id, other);
    }
  }

  /** What is known when a child's task runs. */
  ghost predicate ChildRuns(s: Realm, c: Pid, p: Pid, fulfil: bool, reject: bool) {
    && Internal(s, c) && Ok(s, {c}) && s.nodes[c].fate == Open && s.nodes[c].calls == []
    && s.nodes[c].state.Pending? && p < c && s.nodes[c].origin == ChildOf(p, fulfil, reject)
  }

  /** The recorded calls and fate explain each other, and the promise is settled accordingly. */
  lemma DecidedOk(s: Realm, c: Pid, p: Pid, fulfil: bool, reject: bool, calls: seq<Call>, fate: Fate, s': Realm)
    requires ChildRuns(s, c, p, fulfil, reject) && Explains(s.nodes[p].state, fulfil, reject, calls, fate, c)
    requires fate.Takes? ==> Known(s, fate.value) && !Refuses(c, fate.value)
    requires var recorded := With(s, c, s.nodes[c].(calls := calls, fate := fate));
             s' == match fate
                   case Takes(v) => if Known(recorded, v) then Resolve(recorded, c, v) else recorded
                   case Fails(e) => Decline(recorded, c, e)
                   case _ => recorded
    requires !fate.Open? && (fate.Fails? ==> Known(s, fate.reason))
    requires s.nodes[p].state.Rejected? && !reject ==> PassesOn(s.nodes[p], c)
    ensures Ok(s', {})
  {
    RecordOk(s, c, calls, fate);
    var recorded := With(s, c, s.nodes[c].(calls := calls, fate := fate));
    match fate
    case Takes(v) => ResolveOk(recorded, c, v);
    case Fails(e) => DeclineOk(recorded, c, e);
    case Lost =>
  }

  lemma WithTwice(s: Realm, c: Pid, first: Node, second: Node)
    requires Has(s, c)
    ensures With(With(s, c, first), c, second) == With(s, c, second)
  {
  }

  lemma RecordedOnce(s: Realm, c: Pid, call: Call, fate: Fate)
    requires Has(s, c) && s.nodes[c].calls == []
    ensures SetFate(LogCall(s, c, call), c, fate) == With(s, c, s.nodes[c].(calls := [call], fate := fate))
  {
    assert s.nodes[c].calls + [call] == [call];
    WithTwice(s, c, s.nodes[c].(calls := [call]), s.nodes[c].(calls := [call], fate := fate));
  }

  lemma RecordedTwice(s: Realm, c: Pid, first: Call, second: Call, fate: Fate)
    requires Has(s, c) && s.nodes[c].calls == []
    ensures SetFate(LogCall(LogCall(s, c, first), c, second), c, fate)
            == With(s, c, s.nodes[c].(calls := [first, second], fate := fate))
  {
    var node := s.nodes[c].(calls := [first, second]);
    assert [first] + [second] == [first, second];
    assert s.nodes[c].calls + [first] == [first];
    WithTwice(s, c, s.nodes[c].(calls := [first]), node);
    WithTwice(s, c, node, node.(fate := fate));
  }

  lemma OnFulfilledOk(s: Realm, c: Pid, p: Pid, reject: bool, arg: Value, first: Reply, second: Reply)
    requires ChildRuns(s, c, p, true, reject) && s.nodes[p].state == Resolved(arg)
    requires KnownReply(s, first) && KnownReply(s, second)
    ensures Ok(OnFulfilled(s, c, reject, arg, first, second), {})
  {
    var s' := OnFulfilled(s, c, reject, arg, first, second);
    var thrown := Thrown(c, first);
    if thrown == [] {
      RecordedOnce(s, c, Fulfil(arg, first), Takes(first.value));
      DecidedOk(s, c, p, true, reject, [Fulfil(arg, first)], Takes(first.value), s');
    } else if !reject {
      RecordedOnce(s, c, Fulfil(arg, first), Fails(thrown[0]));
      DecidedOk(s, c, p, true, reject, [Fulfil(arg, first)], Fails(thrown[0]), s');
    } else {
      var calls := [Fulfil(arg, first), Reject(thrown[0], second)];
      var fate := if Thrown(c, second) == [] then Takes(second.value) else Lost;
      RecordedTwice(s, c, calls[0], calls[1], fate);
      DecidedOk(s, c, p, true, reject, calls, fate, s');
    }
  }

  lemma OnDeclinedOk(s: Realm, c: Pid, p: Pid, fulfil: bool, arg: Value, reply: Reply)
    requires ChildRuns(s, c, p, fulfil, true) && s.nodes[p].state == Rejected(arg) && KnownReply(s, reply)
    ensures Ok(OnDeclined(s, c, arg, reply), {})
  {
    var s' := OnDeclined(s, c, arg, reply);
    var thrown := Thrown(c, reply);
    var calls := [Reject(arg, reply)];
    var fate := if thrown == [] then Takes(reply.value)
                else if CarriesProperty(thrown[0]) then Fails(thrown[0]) else Lost;
    RecordedOnce(s, c, calls[0], fate);
    DecidedOk(s, c, p, fulfil, true, calls, fate, s');
  }

  /** The trailing call with undefined finds the promise settled, because settled values are never promises. */
  lemma OnAdoptedOk(s: Realm, c: Pid, v: Value)
    requires Has(s, c) && !v.Ref? && Ok(s, BusyWith(s, c)) && (Internal(s, c) ==> s.nodes[c].state.Pending? && Earns(s, s.nodes[c].fate, v))
    ensures Ok(OnAdopted(s, c, v), {})
    ensures s.nodes[c].state.Pending? ==> OnAdopted(s, c, v) == Resolve(s, c, v) && OnAdopted(s, c, v).nodes[c].state == Resolved(v)
  {
    if s.nodes[c].state.Pending? {
      ResolveOk(s, c, v);
    }
  }

  lemma OnAdoptedRejectionOk(s: Realm, c: Pid, e: Value)
    requires Has(s, c) && Known(s, e) && Ok(s, BusyWith(s, c)) && (Internal(s, c) ==> s.nodes[c].state.Pending? && EarnsRejection(s, s.nodes[c].fate, e))
    ensures Ok(OnAdoptedRejection(s, c, e), {})
    ensures s.nodes[c].state.Pending? ==> OnAdoptedRejection(s, c, e).nodes[c].state == Rejected(e)
  {
    if s.nodes[c].state.Pending? {
      DeclineOk(s, c, e);
    }
  }

  // ---- polling

  lemma {:induction false} FirstReasonBlames(s: Realm, items: seq<Value>)
    requires FirstReason(s, items) != []
    ensures |FirstReason(s, items)| == 1
    ensures exists i :: 0 <= i < |items| && ItemRejected(s, items[i])
              && s.nodes[items[i].id].state.reason == FirstReason(s, items)[0]
              && forall k :: 0 <= k < i ==> !ItemRejected(s, items[k])
  {
    if !ItemRejected(s, items[0]) {
      FirstReasonBlames(s, items[1..]);
      var i :| 0 <= i < |items[1..]| && ItemRejected(s, items[1..][i])
               && s.nodes[items[1..][i].id].state.reason == FirstReason(s, items[1..])[0]
               && forall k :: 0 <= k < i ==> !ItemRejected(s, items[1..][k]);
      assert items[i + 1] == items[1..][i];
      forall k | 0 <= k < i + 1
        ensures !ItemRejected(s, items[k])
      {
        assert k > 0 ==> items[k] == items[1..][k - 1];
      }
    }
  }

  lemma {:induction false} NoReasonNoRejection(s: Realm, items: seq<Value>)
    requires FirstReason(s, items) == []
    ensures forall i :: 0 <= i < |items| ==> !ItemRejected(s, items[i])
  {
    if items != [] {
      NoReasonNoRejection(s, items[1..]);
      forall i | 0 <= i < |items|
        ensures !ItemRejected(s, items[i])
      {
        assert i > 0 ==> items[i] == items[1..][i - 1];
      }
    }
  }

  /** What one poll decides: nothing, all values, or the first rejection in array order. */
  lemma DecideMeans(s: Realm, items: seq<Value>)
    requires forall i :: 0 <= i < |items| ==> Known(s, items[i])
    ensures match Decide(s, items)
            case Again => exists i :: 0 <= i < |items| && ItemPending(s, items[i])
            case Values(values) => Collects(s, items, values)
            case Reason(e) =>
              if Undefined in items then e == TYPE_ERROR
              else exists i :: 0 <= i < |items| && ItemRejected(s, items[i]) && s.nodes[items[i].id].state.reason == e
                     && forall k :: 0 <= k < i ==> !ItemRejected(s, items[k])
    ensures Decide(s, items).Reason? <==> Undefined in items || exists i :: 0 <= i < |items| && ItemRejected(s, items[i])
  {
    if FirstReason(s, items) != [] {
      FirstReasonBlames(s, items);
    } else {
      NoReasonNoRejection(s, items);
      if Decide(s, items).Values? {
        ValuesCollect(s, items);
      }
    }
  }

  lemma ValuesCollect(s: Realm, items: seq<Value>)
    requires Undefined !in items && forall i :: 0 <= i < |items| ==> Known(s, items[i])
    requires forall i :: 0 <= i < |items| ==> !ItemRejected(s, items[i]) && !ItemPending(s, items[i])
    ensures Collects(s, items, seq(|items|, i requires 0 <= i < |items| => ItemValue(s, items[i])))
  {
  }

  lemma OnPollOk(s: Realm, c: Pid)
    requires Internal(s, c) && Ok(s, {c}) && s.nodes[c].origin.AllOf? && s.nodes[c].fate == Open && s.nodes[c].state.Pending?
    ensures Ok(OnPoll(s, c), {})
  {
    var items := s.nodes[c].origin.items;
    assert NodeOk(s, c, {c});
    DecideMeans(s, items);
    match Decide(s, items)
    case Again => PollAgainOk(s, c);
    case Values(values) =>
      FateRecordOk(s, c, Takes(List(values)));
      ResolveOk(SetFate(s, c, Takes(List(values))), c, List(values));
    case Reason(e) =>
      ReasonIsKnown(s, c, items, e);
      FateRecordOk(s, c, Fails(e));
      DeclineOk(SetFate(s, c, Fails(e)), c, e);
  }

  lemma ReasonIsKnown(s: Realm, c: Pid, items: seq<Value>, e: Value)
    requires Ok(s, {c}) && BlamesMember(s, items, e)
    ensures Known(s, e)
  {
    if Undefined !in items {
      var i :| 0 <= i < |items| && items[i].Ref? && Has(s, items[i].id) && s.nodes[items[i].id].state == Rejected(e);
      assert NodeOk(s, items[i].id, {c});
    }
  }

  lemma FateRecordOk(s: Realm, c: Pid, fate: Fate)
    requires Internal(s, c) && Ok(s, {c}) && s.nodes[c].fate == Open && OriginOk(SetFate(s, c, fate), c)
    requires fate.Takes? ==> Known(s, fate.value)
    ensures Ok(SetFate(s, c, fate), {c}) && SetFate(s, c, fate).nodes[c].state.Pending?
  {
    RecordOk(s, c, s.nodes[c].calls, fate);
  }

  lemma PollAgainOk(s: Realm, c: Pid)
    requires Internal(s, c) && Ok(s, {c}) && s.nodes[c].origin.AllOf? && s.nodes[c].fate == Open && s.nodes[c].state.Pending?
    ensures Ok(AddJob(Place(s, c, InJob(s.next)), Poll(c)), {})
  {
    var s' := AddJob(Place(s, c, InJob(s.next)), Poll(c));
    NextIsFree(s, {c});
    assert NodeOk(s, c, {c});
    forall d | 0 <= d < |s.nodes|
      ensures NodeKept(s, s', d, {c})
    {
    }
    forall id | id in s.jobs
      ensures JobKept(s, s', id)
    {
    }
    FateKept(s, s', c, {c});
    AdoptOrigin(s, s', c);
    ExtensionOk(s, s', {c}, {});
  }

  // ---- all steps

  /** A child's entry, and what it says about the running task's target. */
  lemma ChildIsReady(s: Realm, id: nat, p: Pid, i: nat)
    requires Ok(s, {}) && id in s.jobs && JobValid(s, s.jobs[id])
    requires s.jobs[id].Fulfilled? || s.jobs[id].Declined? || s.jobs[id].Propagate?
    requires p == s.jobs[id].parent && i == s.jobs[id].index && s.nodes[p].subs[i].Then?
    ensures var entry := s.nodes[p].subs[i];
            ChildRuns(Dequeue(s, id), entry.child, p, entry.fulfil, entry.reject)
            && Dequeue(s, id).nodes[p].state == s.nodes[p].state && Dequeue(s, id).nodes[p].waited == s.nodes[p].waited
  {
    assert JobOk(s, id) && EntryOk(s, p, i);
    var c := s.nodes[p].subs[i].child;
    assert NodeOk(s, c, {});
    DequeueOk(s, id);
  }

  lemma RunChildOk(s: Realm, id: nat, first: Reply, second: Reply)
    requires Ok(s, {}) && Enabled(s, RunTask(id, first, second))
    requires s.jobs[id].Fulfilled? || s.jobs[id].Declined? || s.jobs[id].Propagate?
    requires s.nodes[s.jobs[id].parent].subs[s.jobs[id].index].Then?
    ensures Ok(RunJob(s, id, first, second), {})
  {
    var job, rest := s.jobs[id], Dequeue(s, id);
    assert JobOk(s, id);
    var c := Target(s, job);
    var entry := s.nodes[job.parent].subs[job.index];
    ChildIsReady(s, id, job.parent, job.index);
    match job
    case Fulfilled(p, i, v) => OnFulfilledOk(rest, c, p, entry.reject, v, first, second);
    case Declined(p, i, e) => OnDeclinedOk(rest, c, p, entry.fulfil, e, first);
    case Propagate(p, i, e) =>
      assert NodeOk(s, p, {});
      DecidedOk(rest, c, p, true, false, [], Fails(e), RunJob(s, id, first, second));
  }

  /** What is known when the task of an adopting or given promise runs. */
  lemma TargetIsReady(s: Realm, id: nat)
    requires Ok(s, {}) && id in s.jobs && JobValid(s, s.jobs[id])
    ensures var c := Target(s, s.jobs[id]); var rest := Dequeue(s, id);
            && Ok(rest, BusyWith(rest, c)) && Has(rest, c) && Internal(rest, c) == Internal(s, c)
            && (Internal(s, c) ==> rest.nodes[c].state.Pending?)
            && rest.nodes[c].fate == s.nodes[c].fate && rest.nodes[c].origin == s.nodes[c].origin
            && rest.nodes[c].calls == s.nodes[c].calls && |rest.nodes| == |s.nodes|
            && forall q :: 0 <= q < |s.nodes| ==> rest.nodes[q].state == s.nodes[q].state
  {
    assert JobOk(s, id);
    assert NodeOk(s, Target(s, s.jobs[id]), {});
    DequeueOk(s, id);
  }

  lemma RunAdoptionOk(s: Realm, id: nat, first: Reply, second: Reply)
    requires Ok(s, {}) && Enabled(s, RunTask(id, first, second))
    requires s.jobs[id].Fulfilled? || s.jobs[id].Declined?
    requires s.nodes[s.jobs[id].parent].subs[s.jobs[id].index].Adopt?
    ensures Ok(RunJob(s, id, first, second), {})
  {
    var job, rest := s.jobs[id], Dequeue(s, id);
    assert JobOk(s, id) && EntryOk(s, job.parent, job.index) && NodeOk(s, job.parent, {});
    TargetIsReady(s, id);
    match job
    case Fulfilled(p, i, v) => OnAdoptedOk(rest, Target(s, job), v);
    case Declined(p, i, e) => OnAdoptedRejectionOk(rest, Target(s, job), e);
  }

  lemma RunCopyOk(s: Realm, id: nat, first: Reply, second: Reply)
    requires Ok(s, {}) && Enabled(s, RunTask(id, first, second))
    requires s.jobs[id].ResolveWith? || s.jobs[id].RejectWith?
    ensures Ok(RunJob(s, id, first, second), {})
  {
    var job, rest := s.jobs[id], Dequeue(s, id);
    assert JobOk(s, id) && NodeOk(s, job.from, {});
    TargetIsReady(s, id);
    var c := Target(s, job);
    if rest.nodes[c].state.Pending? {
      match job
      case ResolveWith(_, _, v) => ResolveOk(rest, c, v);
      case RejectWith(_, _, e) => DeclineOk(rest, c, e);
    }
  }

  lemma RunGivenOk(s: Realm, id: nat, first: Reply, second: Reply)
    requires Ok(s, {}) && Enabled(s, RunTask(id, first, second)) && (s.jobs[id].Execute? || s.jobs[id].Poll?)
    ensures Ok(RunJob(s, id, first, second), {})
  {
    var job, rest := s.jobs[id], Dequeue(s, id);
    assert JobOk(s, id);
    TargetIsReady(s, id);
    var c := Target(s, job);
    assert NodeOk(s, c, {});
    match job
    case Execute(_) =>
      var Given(v, ok) := s.nodes[c].origin;
      if ok {
        FateRecordOk(rest, c, Takes(v));
        ResolveOk(SetFate(rest, c, Takes(v)), c, v);
      } else {
        FateRecordOk(rest, c, Fails(v));
        DeclineOk(SetFate(rest, c, Fails(v)), c, v);
      }
    case Poll(_) => OnPollOk(rest, c);
  }

  lemma RunJobOk(s: Realm, id: nat, first: Reply, second: Reply)
    requires Ok(s, {}) && Enabled(s, RunTask(id, first, second))
    ensures Ok(RunJob(s, id, first, second), {})
  {
    var job := s.jobs[id];
    assert JobOk(s, id);
    if job.ResolveWith? || job.RejectWith? {
      RunCopyOk(s, id, first, second);
    } else if job.Execute? || job.Poll? {
      RunGivenOk(s, id, first, second);
    } else if s.nodes[job.parent].subs[job.index].Then? {
      RunChildOk(s, id, first, second);
    } else {
      RunAdoptionOk(s, id, first, second);
    }
  }

  /** New promises, with the task or the entry that will settle them. */
  lemma GrowthOk(s: Realm, s': Realm)
    requires Ok(s, {}) && Extends(s, s', {})
    requires forall d {:trigger NodeOk(s', d, {})} :: |s.nodes| <= d < |s'.nodes| ==> NodeOk(s', d, {})
    requires forall p, i {:trigger EntryOk(s', p, i)} :: 0 <= p < |s'.nodes| && 0 <= i < |s'.nodes[p].subs| ==>
               (p < |s.nodes| && i < |s.nodes[p].subs|) || EntryOk(s', p, i)
    requires forall id {:trigger JobOk(s', id)} :: id in s'.jobs ==> id in s.jobs || JobOk(s', id)
    ensures Ok(s', {})
  {
    forall d | |s.nodes| <= d < |s'.nodes|
      ensures Has(s', d) && NodeOk(s', d, {})
    {
    }
    ExtensionOk(s, s', {}, {});
  }

  lemma GrowthExtends(s: Realm, s': Realm)
    requires s.next <= s'.next && |s.nodes| <= |s'.nodes|
    requires forall d :: 0 <= d < |s.nodes| ==> s'.nodes[d] == s.nodes[d].(subs := s'.nodes[d].subs) && s.nodes[d].subs <= s'.nodes[d].subs
    requires forall id :: id in s.jobs ==> id in s'.jobs && s'.jobs[id] == s.jobs[id]
    ensures Extends(s, s', {})
  {
    forall d | 0 <= d < |s.nodes|
      ensures NodeKept(s, s', d, {})
    {
    }
    forall id | id in s.jobs
      ensures JobKept(s, s', id)
    {
    }
  }

  lemma CreateOk(s: Realm)
    requires Ok(s, {})
    ensures Ok(Append(s, Outside, Nowhere), {})
  {
    var s' := Append(s, Outside, Nowhere);
    GrowthExtends(s, s');
    GrowthOk(s, s');
  }

  lemma GiveOk(s: Realm, v: Value, ok: bool)
    requires Ok(s, {}) && Known(s, v)
    ensures Ok(GivePromise(s, v, ok), {})
  {
    var s' := GivePromise(s, v, ok);
    NextIsFree(s, {});
    GrowthExtends(s, s');
    GrowthOk(s, s');
  }

  lemma AllOk(s: Realm, items: seq<Value>)
    requires Ok(s, {}) && forall i :: 0 <= i < |items| ==> Known(s, items[i])
    ensures Ok(AddJob(Append(s, AllOf(items), InJob(s.next)), Poll(|s.nodes|)), {})
  {
    var s' := AddJob(Append(s, AllOf(items), InJob(s.next)), Poll(|s.nodes|));
    NextIsFree(s, {});
    GrowthExtends(s, s');
    GrowthOk(s, s');
  }

  /** Nobody waited for a promise that did not exist. */
  lemma NewcomerDidNotWait(s: Realm, p: Pid)
    requires Ok(s, {}) && Has(s, p)
    ensures !PassesOn(s.nodes[p], |s.nodes|)
  {
    var node := s.nodes[p];
    assert NodeOk(s, p, {});
    forall i | 0 <= i < |node.waited|
      ensures node.waited[i].child < |s.nodes|
    {
      assert EntryOk(s, p, i) && node.waited[i] == node.subs[i];
    }
  }

  lemma AttachOk(s: Realm, p: Pid, fulfil: bool, reject: bool)
    requires Ok(s, {}) && Has(s, p)
    requires (s.nodes[p].state.Resolved? ==> !fulfil) && (s.nodes[p].state.Rejected? ==> !reject)
    ensures Ok(Attach(s, p, fulfil, reject), {})
  {
    var s' := Attach(s, p, fulfil, reject);
    GrowthExtends(s, s');
    NewcomerDidNotWait(s, p);
    GrowthOk(s, s');
  }

  lemma ThenOk(s: Realm, p: Pid, fulfil: bool, reject: bool)
    requires Ok(s, {}) && Has(s, p)
    ensures Ok(ThenStep(s, p, fulfil, reject), {})
  {
    var state := s.nodes[p].state;
    assert NodeOk(s, p, {});
    if state.Resolved? && fulfil {
      GiveOk(s, state.value, true);
      AttachOk(GivePromise(s, state.value, true), |s.nodes|, true, false);
    } else if state.Rejected? && reject {
      GiveOk(s, state.reason, false);
      AttachOk(GivePromise(s, state.reason, false), |s.nodes|, true, false);
    } else if !fulfil && !reject {
      GiveOk(s, TYPE_ERROR, false);
    } else {
      AttachOk(s, p, fulfil, reject);
    }
  }

  lemma CallOk(s: Realm, step: Step)
    requires Ok(s, {}) && Enabled(s, step) && (step.CallResolve? || step.CallReject?)
    ensures Ok(Do(s, step), {})
  {
    if s.nodes[step.p].state.Pending? {
      match step
      case CallResolve(p, v) =>
        if !Refuses(p, v) {
          ResolveOk(s, p, v);
        }
      case CallReject(p, v) => DeclineOk(s, p, v);
    }
  }

  lemma StepOk(s: Realm, step: Step)
    requires Ok(s, {}) && Enabled(s, step)
    ensures Ok(Do(s, step), {})
  {
    match step
    case Create => CreateOk(s);
    case CallResolve(_, _) => CallOk(s, step);
    case CallReject(_, _) => CallOk(s, step);
    case Subscribe(p, fulfil, reject) => ThenOk(s, p, fulfil, reject);
    case Give(v, ok) => GiveOk(s, v, ok);
    case All(items) => AllOk(s, items);
    case RunTask(id, first, second) => RunJobOk(s, id, first, second);
  }

  lemma {:induction false} RunOk(s: Realm, steps: seq<Step>, s': Realm)
    requires Ok(s, {}) && Runs(s, steps, s')
    ensures Ok(s', {})
    decreases |steps|
  {
    if steps != [] {
      StepOk(s, steps[0]);
      RunOk(Do(s, steps[0]), steps[1..], s');
    }
  }
}
