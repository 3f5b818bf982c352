/** Promise objects as the class keeps them, updated in place; each method is tied to its step on values. */
module PromiseObjects {
  import opened Promises
  import opened PromiseInvariant
  import opened PromiseSteps

  class Promise {
    var state: State
    var subscribers: seq<Entry>
    var origin: Origin
    // History, which no decision depends on.
    ghost var where: Where
    ghost var fate: Fate
    ghost var calls: seq<Call>
    ghost var broadcasts: nat
    ghost var waited: seq<Entry>

    constructor (origin: Origin, ghost where: Where)
      ensures View() == Node(Pending, [], origin, where, Open, [], 0, [])
    {
      this.state, this.subscribers, this.origin := Pending, [], origin;
      this.where, this.fate, this.calls, this.broadcasts, this.waited := where, Open, [], 0, [];
    }

    ghost function View(): Node
      reads this
    {
      Node(state, subscribers, origin, where, fate, calls, broadcasts, waited)
    }
  }

  /** Whoever waits in entry `k` of `p` put somewhere else. */
  ghost function Redirected(s: Realm, p: Pid, k: nat, where: Where): Realm {
    s.(nodes := seq(|s.nodes|, c requires 0 <= c < |s.nodes| =>
         s.nodes[c].(where := if s.nodes[c].where == At(p, k) then where else s.nodes[c].where)))
  }

  lemma ServedNext(s: Realm, p: Pid, state: State, k: nat)
    requires Has(s, p) && k < |s.nodes[p].subs| && !state.Pending?
    ensures var subs := s.nodes[p].subs; var before := Served(s, p, state, k); var id := s.next + k;
            Served(s, p, state, k + 1) ==
              Redirected(before, p, k, if Chosen(subs, state, k) then InJob(id) else Nowhere)
                .(jobs := if Chosen(subs, state, k) then before.jobs[id := JobFor(subs, p, state, k)] else before.jobs,
                  next := id + 1)
  {
    MovedNext(s, p, state, k);
    JobsNext(s, p, state, k);
  }

  ghost predicate Serving(settled: Realm, p: Pid, subs: seq<Entry>, state: State, now: Realm, k: nat) {
    && Has(settled, p) && !state.Pending? && settled.nodes[p].subs == subs && k <= |subs|
    && now == Served(settled, p, state, k)
  }

  lemma ServedNone(s: Realm, p: Pid, state: State)
    requires Has(s, p) && !state.Pending?
    ensures Serving(s, p, s.nodes[p].subs, state, s, 0)
  {
    assert Served(s, p, state, 0).nodes == s.nodes;
  }

  lemma JobsNext(s: Realm, p: Pid, state: State, k: nat)
    requires Has(s, p) && k < |s.nodes[p].subs| && !state.Pending?
    ensures var subs := s.nodes[p].subs; var id := s.next + k; var before := s.jobs + NewJobs(subs, p, state, s.next, k);
            s.jobs + NewJobs(subs, p, state, s.next, k + 1) ==
              if Chosen(subs, state, k) then before[id := JobFor(subs, p, state, k)] else before
  {
  }

  lemma MovedNext(s: Realm, p: Pid, state: State, k: nat)
    requires Has(s, p) && k < |s.nodes[p].subs| && !state.Pending?
    ensures Served(s, p, state, k + 1).nodes ==
              Redirected(Served(s, p, state, k), p, k,
                         if Chosen(s.nodes[p].subs, state, k) then InJob(s.next + k) else Nowhere).nodes
  {
    var where := if Chosen(s.nodes[p].subs, state, k) then InJob(s.next + k) else Nowhere;
    var before := Served(s, p, state, k);
    forall c | 0 <= c < |s.nodes|
      ensures Served(s, p, state, k + 1).nodes[c] == Redirected(before, p, k, where).nodes[c]
    {
      MovedOne(s.nodes[c].where, p, s.nodes[p].subs, state, s.next, k);
    }
  }

  lemma MovedOne(where: Where, p: Pid, subs: seq<Entry>, state: State, next: nat, k: nat)
    requires k < |subs|
    ensures var before := Moved(where, p, subs, state, next, k);
            Moved(where, p, subs, state, next, k + 1) ==
              if before == At(p, k) then if Chosen(subs, state, k) then InJob(next + k) else Nowhere else before
  {
  }

  /** All promises of a program, and the scheduler's tasks that belong to them. */
  class Library {
    var promises: seq<Promise>
    var jobs: map<nat, Job>
    var next: nat

    ghost predicate Valid()
      reads this
    {
      forall i, j :: 0 <= i < j < |promises| ==> promises[i] != promises[j]
    }

    ghost function View(): Realm
      reads this, promises
    {
      Realm(seq(|promises|, i requires 0 <= i < |promises| reads this, promises => promises[i].View()), jobs, next)
    }

    constructor ()
      ensures Valid() && View() == Realm([], map[], 0)
    {
      promises, jobs, next := [], map[], 0;
    }

    method Schedule(job: Job)
      requires Valid()
      modifies this`jobs, this`next
      ensures Valid() && View() == AddJob(old(View()), job)
    {
      jobs, next := jobs[next := job], next + 1;
    }

    ghost method Put(p: Pid, where: Where)
      requires Valid() && p < |promises|
      modifies promises[p]
      ensures View() == Place(old(View()), p, where)
    {
      if !promises[p].origin.Outside? {
        promises[p].where := where;
      }
      assert View().nodes == Place(old(View()), p, where).nodes;
    }

    /** The part of both broadcasts that changes the promise itself. */
    method Settling(p: Pid, state: State)
      requires Valid() && p < |promises|
      modifies promises[p]
      ensures var node := old(promises[p].View());
              View() == With(old(View()), p, node.(state := state, broadcasts := node.broadcasts + 1, waited := node.subs))
      ensures promises[p].state == state && promises[p].subscribers == old(promises[p].subscribers)
    {
      promises[p].state := state;
      promises[p].broadcasts := promises[p].broadcasts + 1;
      promises[p].waited := promises[p].subscribers;
      assert View().nodes == old(View()).nodes[p := promises[p].View()];
    }

    /** History: whoever waited in entry `k` of `p` is now at `where`. */
    ghost method Redirect(p: Pid, k: nat, where: Where)
      requires Valid()
      modifies promises
      ensures View() == Redirected(old(View()), p, k, where)
    {
      forall q | q in promises && q.where == At(p, k) {
        q.where := where;
      }
      assert View().nodes == Redirected(old(View()), p, k, where).nodes;
    }

    /** One round of a forEach over the subscribers of `p`: entry `k` is served or passed over. */
    method ServeEntry(p: Pid, state: State, subscribers: seq<Entry>, rejections: bool, k: nat, ghost settled: Realm)
      requires Valid() && Serving(settled, p, subscribers, state, View(), k) && k < |subscribers|
      requires rejections == AnyReject(subscribers)
      modifies this`jobs, this`next, promises
      ensures Valid() && Serving(settled, p, subscribers, state, View(), k + 1)
    {
      ServedNext(settled, p, state, k);
      var entry := subscribers[k];
      var chosen := if state.Rejected? && rejections then entry.HasReject() else entry.HasResolve();
      Redirect(p, k, if chosen then InJob(next) else Nowhere);
      if chosen {
        var job := match state {
          case Resolved(value) => Fulfilled(p, k, value)
          case Rejected(reason) => if rejections then Declined(p, k, reason) else Propagate(p, k, reason)
        };
        jobs := jobs[next := job];
      }
      next := next + 1;
    }

    /**
     * The forEach loops of both broadcasts. Filtering first and serving the rest in order, as
     * broadcastReject does, is the same as passing over the others.
     */
    method Serve(p: Pid, state: State, subscribers: seq<Entry>, rejections: bool, ghost settled: Realm)
      requires Valid() && settled == View() && Has(settled, p) && settled.nodes[p].subs == subscribers
      requires !state.Pending? && rejections == AnyReject(subscribers)
      modifies this`jobs, this`next, promises
      ensures Valid() && Serving(settled, p, subscribers, state, View(), |subscribers|)
    {
      ServedNone(settled, p, state);
      assert Serving(settled, p, subscribers, state, View(), 0);
      for k := 0 to |subscribers|
        invariant Valid() && promises == old(promises)
        invariant Serving(settled, p, subscribers, state, View(), k)
      {
        ServeEntry(p, state, subscribers, rejections, k, settled);
      }
    }

    /** broadcastResolve; `threw` for the TypeError of resolving a promise with itself. */
    method BroadcastResolve(p: Pid, value: Value) returns (threw: bool)
      requires Valid() && p < |promises| && Known(View(), value)
      modifies this`jobs, this`next, promises
      ensures Valid() && threw == Refuses(p, value)
      ensures View() == if threw then old(View()) else Promises.Resolve(old(View()), p, value)
    {
      threw := value == Ref(p);
      if threw || !promises[p].state.Pending? {
        return;
      }
      if value.Ref? {
        var other := promises[value.id];
        match other.state {
          case Resolved(v) =>
            Put(p, InJob(next));
            Schedule(ResolveWith(p, value.id, v));
          case Rejected(reason) =>
            Put(p, InJob(next));
            Schedule(RejectWith(p, value.id, reason));
          case Pending =>
            Push(value.id, Adopt(p), p);
        }
        return;
      }
      Settling(p, Resolved(value));
      Serve(p, Resolved(value), promises[p].subscribers, AnyReject(promises[p].subscribers), View());
    }

    /** subscribers.push of an adopting promise. */
    method Push(q: Pid, entry: Entry, ghost p: Pid)
      requires Valid() && p < |promises| && q < |promises| && p != q && entry == Adopt(p)
      modifies promises
      ensures View() == Enlist(old(View()), q, p)
    {
      Put(p, At(q, |promises[q].subscribers|));
      promises[q].subscribers := promises[q].subscribers + [entry];
      assert View().nodes == Enlist(old(View()), q, p).nodes;
    }

    /** broadcastReject; `threw` when nobody listens. */
    method BroadcastReject(p: Pid, reason: Value) returns (threw: bool)
      requires Valid() && p < |promises|
      modifies this`jobs, this`next, promises
      ensures Valid() && threw == Unhandled(old(View()), p)
      ensures View() == Decline(old(View()), p, reason)
    {
      if !promises[p].state.Pending? {
        return false;
      }
      var subscribers := promises[p].subscribers;
      threw := forall i :: 0 <= i < |subscribers| ==> !subscribers[i].HasReject() && !subscribers[i].HasResolve();
      Settling(p, Rejected(reason));
      Serve(p, Rejected(reason), subscribers, AnyReject(subscribers), View());
    }

    // ---- then, resolve, reject and all

    /** new Promise, with the task of its executor or without. */
    method Make(origin: Origin, ghost where: Where) returns (p: Pid)
      requires Valid()
      modifies this`promises
      ensures Valid() && p == |old(promises)| && View() == Append(old(View()), origin, where)
      ensures |promises| == p + 1 && promises[..p] == old(promises) && fresh(promises[p])
    {
      var promise := new Promise(origin, where);
      p := |promises|;
      promises := promises + [promise];
      assert View().nodes == Append(old(View()), origin, where).nodes;
    }

    /** Promise.resolve and Promise.reject. */
    method Give(value: Value, ok: bool) returns (p: Pid)
      requires Valid()
      modifies this
      ensures Valid() && p == |old(promises)| && View() == GivePromise(old(View()), value, ok)
      ensures |promises| == p + 1 && promises[..p] == old(promises) && fresh(promises[p])
    {
      p := Make(Given(value, ok), InJob(next));
      Schedule(Execute(p));
    }

    /** Promise.all. */
    method All(items: seq<Value>) returns (p: Pid)
      requires Valid()
      modifies this
      ensures Valid() && p == |old(promises)|
      ensures View() == AddJob(Append(old(View()), AllOf(items), InJob(old(next))), Poll(p))
    {
      p := Make(AllOf(items), InJob(next));
      Schedule(Poll(p));
    }

    /** The last three lines of `then`. */
    method Subscribe(p: Pid, fulfil: bool, reject: bool) returns (child: Pid)
      requires Valid() && p < |promises|
      modifies this`promises, promises[p]
      ensures Valid() && child == |old(promises)| == |promises| - 1 && View() == Attach(old(View()), p, fulfil, reject)
    {
      ghost var where := if promises[p].state.Pending? then At(p, |promises[p].subscribers|) else Nowhere;
      child := Make(ChildOf(p, fulfil, reject), where);
      promises[p].subscribers := promises[p].subscribers + [Entry.Then(fulfil, reject, child)];
      assert View().nodes == Attach(old(View()), p, fulfil, reject).nodes;
    }

    method Then(p: Pid, fulfil: bool, reject: bool) returns (child: Pid)
      requires Valid() && p < |promises|
      modifies this, promises[p]
      ensures Valid() && View() == ThenStep(old(View()), p, fulfil, reject) && child == |promises| - 1
    {
      var state := promises[p].state;
      if state.Resolved? && fulfil {
        var given := Give(state.value, true);
        child := Subscribe(given, true, false);
      } else if state.Rejected? && reject {
        var given := Give(state.reason, false);
        child := Subscribe(given, true, false);
      } else if !fulfil && !reject {
        child := Give(TYPE_ERROR, false);
      } else {
        child := Subscribe(p, fulfil, reject);
      }
    }

    // ---- the tasks

    /** History: the calls and the fate of `c`. */
    ghost method Record(c: Pid, calls: seq<Call>, fate: Fate)
      requires Valid() && c < |promises|
      modifies promises[c]
      ensures View() == With(old(View()), c, old(promises[c].View()).(calls := calls, fate := fate))
    {
      promises[c].calls, promises[c].fate := calls, fate;
      assert View().nodes == old(View()).nodes[c := promises[c].View()];
    }

    /** promise[broadcastResolveKey](handler(arg)): the exception of the handler or of the broadcast, if any. */
    method ResolveWithReply(c: Pid, reply: Reply) returns (error: seq<Value>)
      requires Valid() && c < |promises| && KnownReply(View(), reply)
      modifies this`jobs, this`next, promises
      ensures Valid() && error == Thrown(c, reply)
      ensures View() == if error == [] then Deliver(old(View()), c, reply.value) else old(View())
    {
      match reply
      case Return(value) =>
        if !Refuses(c, value) {
          Record(c, promises[c].calls, Takes(value));
        }
        var threw := BroadcastResolve(c, value);
        error := if threw then [TYPE_ERROR] else [];
      case Throw(e) =>
        error := [e];
    }

    method RejectFor(c: Pid, reason: Value)
      requires Valid() && c < |promises|
      modifies this`jobs, this`next, promises
      ensures Valid() && View() == Refuse(old(View()), c, reason)
    {
      Record(c, promises[c].calls, Fails(reason));
      var _ := BroadcastReject(c, reason);
    }

    /** The task of an entry of a resolved promise. */
    method RunFulfilled(c: Pid, reject: bool, arg: Value, first: Reply, second: Reply)
      requires Valid() && c < |promises| && KnownReply(View(), first) && KnownReply(View(), second)
      modifies this`jobs, this`next, promises
      ensures Valid() && View() == OnFulfilled(old(View()), c, reject, arg, first, second)
    {
      Record(c, promises[c].calls + [Fulfil(arg, first)], promises[c].fate);
      var error := ResolveWithReply(c, first);
      if error != [] {
        if reject {
          Record(c, promises[c].calls + [Reject(error[0], second)], promises[c].fate);
          error := ResolveWithReply(c, second);
          if error != [] {
            // The exception leaves the task.
            Record(c, promises[c].calls, Lost);
          }
        } else {
          RejectFor(c, error[0]);
        }
      }
    }

    /** The task of an entry with a reject handler of a rejected promise. */
    method RunDeclined(c: Pid, arg: Value, reply: Reply)
      requires Valid() && c < |promises| && KnownReply(View(), reply)
      modifies this`jobs, this`next, promises
      ensures Valid() && View() == OnDeclined(old(View()), c, arg, reply)
    {
      Record(c, promises[c].calls + [Reject(arg, reply)], promises[c].fate);
      var error := ResolveWithReply(c, reply);
      if error != [] {
        if CarriesProperty(error[0]) {
          RejectFor(c, error[0]);
        } else {
          // Assigning innerException throws out of the task.
          Record(c, promises[c].calls, Lost);
        }
      }
    }

    /** filter, find and map of allOrReject. */
    method Examine(items: seq<Value>) returns (verdict: Verdict)
      requires Valid()
      ensures verdict == Decide(View(), items)
    {
      if Undefined in items {
        return Reason(TYPE_ERROR);
      }
      ghost var s := View();
      var settled, values := 0, [];
      for i := 0 to |items|
        invariant FirstReason(s, items) == FirstReason(s, items[i..])
        invariant 0 <= settled <= i && (settled == i <==> forall j :: 0 <= j < i ==> !ItemPending(s, items[j]))
        invariant |values| == i && forall j :: 0 <= j < i ==> values[j] == ItemValue(s, items[j])
      {
        var value := items[i];
        if value.Ref? && value.id < |promises| {
          match promises[value.id].state {
            case Pending => values := values + [value];
            case Rejected(reason) => return Reason(reason);
            case Resolved(v) => settled, values := settled + 1, values + [v];
          }
        } else {
          settled, values := settled + 1, values + [value];
        }
      }
      assert items[|items|..] == [];
      if settled == |items| {
        verdict := Values(values);
        assert values == seq(|items|, i requires 0 <= i < |items| => ItemValue(s, items[i]));
      } else {
        verdict := Again;
      }
    }

    /** One call of allOrReject. */
    method RunPoll(c: Pid, items: seq<Value>)
      requires Valid() && c < |promises| && promises[c].origin == AllOf(items)
      modifies this`jobs, this`next, promises
      ensures Valid() && View() == OnPoll(old(View()), c)
    {
      var verdict := Examine(items);
      match verdict
      case Again =>
        Put(c, InJob(next));
        Schedule(Poll(c));
      case Values(values) =>
        var _ := ResolveWithReply(c, Return(List(values)));
      case Reason(reason) =>
        RejectFor(c, reason);
    }

    /** The task of an adopting entry: the bound broadcast settles, and its own undefined comes too late. */
    method RunAdopted(c: Pid, outcome: State)
      requires Valid() && c < |promises| && !outcome.Pending? && (outcome.Resolved? ==> !outcome.value.Ref?)
      modifies this`jobs, this`next, promises
      ensures Valid()
      ensures View() == match outcome
                        case Resolved(v) => OnAdopted(old(View()), c, v)
                        case Rejected(e) => OnAdoptedRejection(old(View()), c, e)
    {
      match outcome
      case Resolved(v) =>
        var _ := BroadcastResolve(c, v);
        var _ := BroadcastResolve(c, Undefined);
      case Rejected(e) =>
        var threw := BroadcastReject(c, e);
        if threw {
          // The catch clause rejects a second time.
          threw := BroadcastReject(c, e);
        } else {
          var _ := BroadcastResolve(c, Undefined);
        }
    }

    method Take(id: nat) returns (job: Job)
      requires Valid() && id in jobs && JobValid(View(), jobs[id])
      modifies this`jobs, promises
      ensures Valid() && job == old(jobs[id]) && View() == Dequeue(old(View()), id) && JobValid(View(), job)
    {
      job := jobs[id];
      ghost var c := Target(View(), job);
      jobs := jobs - {id};
      Put(c, Nowhere);
    }

    /** The task of entry `i` of promise `p`, which has settled. */
    method RunEntry(p: Pid, i: nat, outcome: State, first: Reply, second: Reply)
      requires Valid() && p < |promises| && i < |promises[p].subscribers| && promises[p].subscribers[i].child < |promises|
      requires KnownReply(View(), first) && KnownReply(View(), second)
      requires !outcome.Pending? && (outcome.Resolved? ==> !outcome.value.Ref?)
      modifies this`jobs, this`next, promises
      ensures Valid()
      ensures var entry := old(promises[p].subscribers[i]);
              View() == match outcome
                        case Resolved(v) =>
                          if entry.Adopt? then OnAdopted(old(View()), entry.child, v)
                          else OnFulfilled(old(View()), entry.child, entry.reject, v, first, second)
                        case Rejected(e) =>
                          if entry.Adopt? then OnAdoptedRejection(old(View()), entry.child, e)
                          else OnDeclined(old(View()), entry.child, e, first)
    {
      var entry := promises[p].subscribers[i];
      if entry.Adopt? {
        RunAdopted(entry.child, outcome);
      } else {
        match outcome
        case Resolved(v) => RunFulfilled(entry.child, entry.reject, v, first, second);
        case Rejected(e) => RunDeclined(entry.child, e, first);
      }
    }

    /** The executor of Promise.resolve and Promise.reject. */
    method RunExecutor(c: Pid)
      requires Valid() && c < |promises| && promises[c].origin.Given?
      requires Known(View(), promises[c].origin.value) && !Refuses(c, promises[c].origin.value)
      modifies this`jobs, this`next, promises
      ensures Valid()
      ensures var Given(v, ok) := old(promises[c].origin);
              View() == if ok then Deliver(old(View()), c, v) else Refuse(old(View()), c, v)
    {
      if promises[c].origin.ok {
        var _ := ResolveWithReply(c, Return(promises[c].origin.value));
      } else {
        RejectFor(c, promises[c].origin.value);
      }
    }

    /** Taking task `id` from the queue and running it. */
    method Run(id: nat, first: Reply, second: Reply)
      requires Valid() && Ok(View(), {}) && Enabled(View(), RunTask(id, first, second))
      modifies this`jobs, this`next, promises
      ensures Valid() && View() == Do(old(View()), RunTask(id, first, second))
    {
      ghost var s := View();
      RunsProperly(s, id);
      var job := Take(id);
      assert |promises| == |View().nodes| && forall c :: 0 <= c < |promises| ==> View().nodes[c] == promises[c].View();
      if job.Fulfilled? || job.Declined? {
        RunEntry(job.parent, job.index, if job.Fulfilled? then Resolved(job.value) else Rejected(job.reason), first, second);
        return;
      }
      match job
      case Propagate(p, i, e) => RejectFor(promises[p].subscribers[i].child, e);
      case ResolveWith(c, _, v) => var _ := BroadcastResolve(c, v);
      case RejectWith(c, _, e) => var _ := BroadcastReject(c, e);
      case Execute(c) => RunExecutor(c);
      case Poll(c) => RunPoll(c, promises[c].origin.items);
    }
  }

  /** No task resolves a promise with itself, and settled values are never promises. */
  lemma RunsProperly(s: Realm, id: nat)
    requires Ok(s, {}) && id in s.jobs && JobValid(s, s.jobs[id])
    ensures match s.jobs[id]
            case Fulfilled(_, _, v) => !v.Ref?
            case ResolveWith(_, _, v) => !v.Ref?
            case Execute(c) => !Refuses(c, s.nodes[c].origin.value)
            case _ => true
  {
    var job := s.jobs[id];
    assert JobOk(s, id);
    match job
    case Fulfilled(p, _, _) => assert NodeOk(s, p, {});
    case ResolveWith(_, q, _) => assert NodeOk(s, q, {});
    case Execute(c) => assert NodeOk(s, c, {});
    case _ =>
  }
}
