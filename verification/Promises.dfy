/**
 * The hand-written Promise: a graph of promises, their subscriber entries and the tasks scheduled
 * for them. A state is a value; the class Library in PromiseObjects.dfy updates it in place.
 */
module Promises {

  type Pid = nat

  /** JavaScript values as far as promises look at them. */
  datatype Value = Undefined | Primitive(n: int) | Object(n: int) | Ref(id: Pid) | List(items: seq<Value>)

  /** The error of resolving a promise with itself, and of polling a missing item. */
  const TYPE_ERROR := Object(0)

  datatype State = Pending | Resolved(value: Value) | Rejected(reason: Value)

  /** A subscriber: two optional handlers and the promise they settle, or an adopting promise. */
  datatype Entry = Then(fulfil: bool, reject: bool, child: Pid) | Adopt(child: Pid) {
    predicate HasResolve() {
      Adopt? || fulfil
    }
    predicate HasReject() {
      Adopt? || reject
    }
  }

  /** How a promise came about. The resolving functions of all but Outside never leave the class. */
  datatype Origin =
    | Outside                                          // new Promise(executor)
    | ChildOf(parent: Pid, fulfil: bool, reject: bool) // then
    | Given(value: Value, ok: bool)                    // Promise.resolve, Promise.reject
    | AllOf(items: seq<Value>)                         // Promise.all

  /** What a handler did when it was called. */
  datatype Reply = Return(value: Value) | Throw(error: Value)

  datatype Call = Fulfil(arg: Value, reply: Reply) | Reject(arg: Value, reply: Reply)

  /** History: what the one task that settles a promise decided for it. */
  datatype Fate = Open | Takes(value: Value) | Fails(reason: Value) | Lost

  /** History: where the one subscriber entry or task is that can settle a promise. */
  datatype Where = At(parent: Pid, index: nat) | InJob(id: nat) | Nowhere

  /** `waited` is history too: the entries that the promise had when it was settled. */
  datatype Node = Node(state: State, subs: seq<Entry>, origin: Origin,
                       where: Where, fate: Fate, calls: seq<Call>, broadcasts: nat, waited: seq<Entry>)

  /** A task in the scheduler's queue. */
  datatype Job =
    | Fulfilled(parent: Pid, index: nat, value: Value)
    | Declined(parent: Pid, index: nat, reason: Value)
    | Propagate(parent: Pid, index: nat, reason: Value)
    | ResolveWith(child: Pid, from: Pid, value: Value)
    | RejectWith(child: Pid, from: Pid, reason: Value)
    | Execute(given: Pid)
    | Poll(all: Pid)

  /** Tasks are numbered; any of them may run next. */
  datatype Realm = Realm(nodes: seq<Node>, jobs: map<nat, Job>, next: nat)

  predicate Has(s: Realm, p: Pid) {
    p < |s.nodes|
  }

  predicate Settled(s: Realm, p: Pid) {
    Has(s, p) && !s.nodes[p].state.Pending?
  }

  predicate Internal(s: Realm, p: Pid) {
    Has(s, p) && !s.nodes[p].origin.Outside?
  }

  function With(s: Realm, p: Pid, node: Node): Realm
    requires Has(s, p)
  {
    s.(nodes := s.nodes[p := node])
  }

  // ---- broadcastResolve and broadcastReject

  predicate AnyReject(subs: seq<Entry>) {
    exists i :: 0 <= i < |subs| && subs[i].HasReject()
  }

  /** The subscribers for which settling schedules a task. */
  predicate Chosen(subs: seq<Entry>, state: State, i: nat)
    requires i < |subs|
  {
    match state
    case Resolved(_) => subs[i].HasResolve()
    case Rejected(_) => if AnyReject(subs) then subs[i].HasReject() else subs[i].HasResolve()
    case Pending => false
  }

  /** The task scheduled for a chosen subscriber. */
  function JobFor(subs: seq<Entry>, p: Pid, state: State, i: nat): Job
    requires !state.Pending?
  {
    match state
    case Resolved(value) => Fulfilled(p, i, value)
    case Rejected(reason) => if AnyReject(subs) then Declined(p, i, reason) else Propagate(p, i, reason)
  }

  /** Where a promise waiting in the subscriber list of `p` is after the first `k` entries were served. */
  function Moved(where: Where, p: Pid, subs: seq<Entry>, state: State, next: nat, k: nat): Where
    requires k <= |subs|
  {
    if where.At? && where.parent == p && where.index < k then
      if Chosen(subs, state, where.index) then InJob(next + where.index) else Nowhere
    else where
  }

  /** The tasks of the chosen ones among the first `k` subscribers. */
  function NewJobs(subs: seq<Entry>, p: Pid, state: State, next: nat, k: nat): (jobs: map<nat, Job>)
    requires !state.Pending? && k <= |subs|
    ensures forall id :: id in jobs <==> next <= id < next + k && Chosen(subs, state, id - next)
    ensures forall id :: id in jobs ==> jobs[id] == JobFor(subs, p, state, id - next)
  {
    if k == 0 then map[]
    else
      var before := NewJobs(subs, p, state, next, k - 1);
      if Chosen(subs, state, k - 1) then before[next + k - 1 := JobFor(subs, p, state, k - 1)] else before
  }

  /** The first `k` subscribers of `p` served: each chosen one has its own new task. */
  function Served(s: Realm, p: Pid, state: State, k: nat): Realm
    requires Has(s, p) && !state.Pending? && k <= |s.nodes[p].subs|
  {
    var subs := s.nodes[p].subs;
    Realm(
      seq(|s.nodes|, c requires 0 <= c < |s.nodes| =>
        s.nodes[c].(where := Moved(s.nodes[c].where, p, subs, state, s.next, k))),
      s.jobs + NewJobs(subs, p, state, s.next, k),
      s.next + k)
  }

  function Settle(s: Realm, p: Pid, state: State): Realm
    requires Has(s, p) && !state.Pending?
  {
    var node := s.nodes[p];
    Served(With(s, p, node.(state := state, broadcasts := node.broadcasts + 1, waited := node.subs)), p, state, |node.subs|)
  }

  function AddJob(s: Realm, job: Job): Realm {
    s.(jobs := s.jobs[s.next := job], next := s.next + 1)
  }

  /** broadcastResolve throws a TypeError, before it looks at the state. */
  predicate Refuses(p: Pid, v: Value) {
    v == Ref(p)
  }

  /** A value that mentions existing promises only. */
  predicate Known(s: Realm, v: Value) {
    v.Ref? ==> Has(s, v.id)
  }

  /** broadcastResolve when it does not throw. */
  function Resolve(s: Realm, p: Pid, v: Value): Realm
    requires Has(s, p) && Known(s, v)
  {
    if !s.nodes[p].state.Pending? then s
    else if v.Ref? then
      match s.nodes[v.id].state
      case Resolved(value) => AddJob(Place(s, p, InJob(s.next)), ResolveWith(p, v.id, value))
      case Rejected(reason) => AddJob(Place(s, p, InJob(s.next)), RejectWith(p, v.id, reason))
      case Pending => Enlist(s, v.id, p)
    else Settle(s, p, Resolved(v))
  }

  /** A new subscriber entry at `q` through which `q` will settle `p`. */
  function Enlist(s: Realm, q: Pid, p: Pid): Realm
    requires Has(s, q) && Has(s, p)
  {
    var placed := Place(s, p, At(q, |s.nodes[q].subs|));
    With(placed, q, placed.nodes[q].(subs := placed.nodes[q].subs + [Adopt(p)]))
  }

  /** History only: promises made outside the class are not tracked. */
  function Place(s: Realm, p: Pid, where: Where): Realm
    requires Has(s, p)
  {
    if Internal(s, p) then With(s, p, s.nodes[p].(where := where)) else s
  }

  /** broadcastReject; whether it then throws 'unhandled rejection' makes no difference to the graph. */
  function Decline(s: Realm, p: Pid, reason: Value): Realm
    requires Has(s, p)
  {
    if !s.nodes[p].state.Pending? then s else Settle(s, p, Rejected(reason))
  }

  /** broadcastReject throws when it settles a promise nobody listens to. */
  predicate Unhandled(s: Realm, p: Pid)
    requires Has(s, p)
  {
    s.nodes[p].state.Pending? && forall i :: 0 <= i < |s.nodes[p].subs| ==> !s.nodes[p].subs[i].HasReject() && !s.nodes[p].subs[i].HasResolve()
  }

  // ---- tasks

  function SetFate(s: Realm, c: Pid, fate: Fate): Realm
    requires Has(s, c)
  {
    With(s, c, s.nodes[c].(fate := fate))
  }

  function LogCall(s: Realm, c: Pid, call: Call): Realm
    requires Has(s, c)
  {
    With(s, c, s.nodes[c].(calls := s.nodes[c].calls + [call]))
  }

  predicate JobValid(s: Realm, job: Job) {
    match job
    case Fulfilled(p, i, _) => Has(s, p) && i < |s.nodes[p].subs| && Has(s, s.nodes[p].subs[i].child)
    case Declined(p, i, _) => Has(s, p) && i < |s.nodes[p].subs| && Has(s, s.nodes[p].subs[i].child)
    case Propagate(p, i, _) => Has(s, p) && i < |s.nodes[p].subs| && Has(s, s.nodes[p].subs[i].child)
    case ResolveWith(c, _, v) => Has(s, c) && Known(s, v)
    case RejectWith(c, _, _) => Has(s, c)
    case Execute(c) => Has(s, c) && s.nodes[c].origin.Given? && Known(s, s.nodes[c].origin.value)
    case Poll(c) => Has(s, c) && s.nodes[c].origin.AllOf?
  }

  /** The promise a task is going to settle. */
  function Target(s: Realm, job: Job): Pid
    requires JobValid(s, job)
  {
    match job
    case Fulfilled(p, i, _) => s.nodes[p].subs[i].child
    case Declined(p, i, _) => s.nodes[p].subs[i].child
    case Propagate(p, i, _) => s.nodes[p].subs[i].child
    case ResolveWith(c, _, _) => c
    case RejectWith(c, _, _) => c
    case Execute(c) => c
    case Poll(c) => c
  }

  /** Resolving a promise for which this is the one chance. */
  function Deliver(s: Realm, c: Pid, v: Value): Realm
    requires Has(s, c) && Known(s, v)
  {
    Resolve(SetFate(s, c, Takes(v)), c, v)
  }

  function Refuse(s: Realm, c: Pid, reason: Value): Realm
    requires Has(s, c)
  {
    Decline(SetFate(s, c, Fails(reason)), c, reason)
  }

  /** What a call of a handler, and of broadcastResolve on its result, throws. */
  function Thrown(c: Pid, reply: Reply): (errors: seq<Value>)
    ensures |errors| <= 1
  {
    match reply
    case Return(v) => if Refuses(c, v) then [TYPE_ERROR] else []
    case Throw(e) => [e]
  }

  /** Strict mode: only objects can be given an innerException. */
  predicate CarriesProperty(v: Value) {
    v.Object? || v.List? || v.Ref?
  }

  predicate KnownReply(s: Realm, reply: Reply) {
    if reply.Return? then Known(s, reply.value) else Known(s, reply.error)
  }

  /** The task of a subscriber of a resolved promise: try the fulfil handler, on an exception the reject handler. */
  function OnFulfilled(s: Realm, c: Pid, reject: bool, arg: Value, first: Reply, second: Reply): Realm
    requires Has(s, c) && KnownReply(s, first) && KnownReply(s, second)
  {
    var called := LogCall(s, c, Fulfil(arg, first));
    var thrown := Thrown(c, first);
    if thrown == [] then Deliver(called, c, first.value)
    else if !reject then Refuse(called, c, thrown[0])
    else
      var again := LogCall(called, c, Reject(thrown[0], second));
      if Thrown(c, second) == [] then Deliver(again, c, second.value) else SetFate(again, c, Lost)
  }

  /** The task of a subscriber of a rejected promise. */
  function OnDeclined(s: Realm, c: Pid, arg: Value, reply: Reply): Realm
    requires Has(s, c) && KnownReply(s, reply)
  {
    var called := LogCall(s, c, Reject(arg, reply));
    var thrown := Thrown(c, reply);
    if thrown == [] then Deliver(called, c, reply.value)
    else if CarriesProperty(thrown[0]) then Refuse(called, c, thrown[0])
    else SetFate(called, c, Lost)
  }

  /** The task of an adopting promise: the inner call settles it, the outer one comes too late unless that threw. */
  function OnAdopted(s: Realm, c: Pid, v: Value): Realm
    requires Has(s, c) && Known(s, v)
  {
    if Refuses(c, v) then Resolve(Decline(s, c, TYPE_ERROR), c, Undefined)
    else Resolve(Resolve(s, c, v), c, Undefined)
  }

  function OnAdoptedRejection(s: Realm, c: Pid, reason: Value): Realm
    requires Has(s, c)
  {
    Resolve(Decline(s, c, reason), c, Undefined)
  }

  // ---- Promise.all

  datatype Verdict = Again | Values(values: seq<Value>) | Reason(reason: Value)

  predicate ItemRejected(s: Realm, v: Value) {
    v.Ref? && Has(s, v.id) && s.nodes[v.id].state.Rejected?
  }

  predicate ItemPending(s: Realm, v: Value) {
    v.Ref? && Has(s, v.id) && s.nodes[v.id].state.Pending?
  }

  function ItemValue(s: Realm, v: Value): Value {
    if v.Ref? && Has(s, v.id) && s.nodes[v.id].state.Resolved? then s.nodes[v.id].state.value else v
  }

  /** The reason of the first rejected member. */
  function FirstReason(s: Realm, items: seq<Value>): seq<Value> {
    if items == [] then []
    else if ItemRejected(s, items[0]) then [s.nodes[items[0].id].state.reason]
    else FirstReason(s, items[1..])
  }

  /** One poll of allOrReject. */
  function Decide(s: Realm, items: seq<Value>): Verdict {
    if Undefined in items then Reason(TYPE_ERROR)
    else if FirstReason(s, items) != [] then Reason(FirstReason(s, items)[0])
    else if forall i :: 0 <= i < |items| ==> !ItemPending(s, items[i]) then
      Values(seq(|items|, i requires 0 <= i < |items| => ItemValue(s, items[i])))
    else Again
  }

  function OnPoll(s: Realm, c: Pid): Realm
    requires Has(s, c) && s.nodes[c].origin.AllOf?
  {
    match Decide(s, s.nodes[c].origin.items)
    case Again => AddJob(Place(s, c, InJob(s.next)), Poll(c))
    case Values(values) => Deliver(s, c, List(values))
    case Reason(reason) => Refuse(s, c, reason)
  }

  // ---- the steps of a program

  datatype Step =
    | Create                                     // new Promise(executor)
    | CallResolve(p: Pid, value: Value)          // the executor's resolve
    | CallReject(p: Pid, value: Value)           // the executor's reject, or its exception
    | Subscribe(p: Pid, fulfil: bool, reject: bool) // then
    | Give(value: Value, ok: bool)               // Promise.resolve, Promise.reject
    | All(items: seq<Value>)                     // Promise.all
    | RunTask(id: nat, first: Reply, second: Reply)

  function Append(s: Realm, origin: Origin, where: Where): Realm {
    s.(nodes := s.nodes + [Node(Pending, [], origin, where, Open, [], 0, [])])
  }

  function GivePromise(s: Realm, v: Value, ok: bool): Realm {
    AddJob(Append(s, Given(v, ok), InJob(s.next)), Execute(|s.nodes|))
  }

  /** A child subscribed to `p`; a settled promise never serves the entry. */
  function Attach(s: Realm, p: Pid, fulfil: bool, reject: bool): Realm
    requires Has(s, p)
  {
    var c := |s.nodes|;
    var where := if s.nodes[p].state.Pending? then At(p, |s.nodes[p].subs|) else Nowhere;
    var grown := Append(s, ChildOf(p, fulfil, reject), where);
    With(grown, p, grown.nodes[p].(subs := grown.nodes[p].subs + [Then(fulfil, reject, c)]))
  }

  /** then; its result is the last promise of the new state. */
  function ThenStep(s: Realm, p: Pid, fulfil: bool, reject: bool): Realm
    requires Has(s, p)
  {
    var state := s.nodes[p].state;
    if state.Resolved? && fulfil then Attach(GivePromise(s, state.value, true), |s.nodes|, true, false)
    else if state.Rejected? && reject then Attach(GivePromise(s, state.reason, false), |s.nodes|, true, false)
    else if !fulfil && !reject then GivePromise(s, TYPE_ERROR, false)
    else Attach(s, p, fulfil, reject)
  }

  predicate Enabled(s: Realm, step: Step) {
    match step
    case CallResolve(p, v) => Has(s, p) && s.nodes[p].origin.Outside? && Known(s, v)
    case CallReject(p, v) => Has(s, p) && s.nodes[p].origin.Outside? && Known(s, v)
    case Subscribe(p, _, _) => Has(s, p)
    case Give(v, _) => Known(s, v)
    case All(items) => forall i :: 0 <= i < |items| ==> Known(s, items[i])
    case RunTask(id, first, second) =>
      id in s.jobs && JobValid(s, s.jobs[id]) && KnownReply(s, first) && KnownReply(s, second)
    case Create => true
  }

  /** A task leaves the queue. */
  function Dequeue(s: Realm, id: nat): Realm
    requires id in s.jobs && JobValid(s, s.jobs[id])
  {
    Place(s.(jobs := s.jobs - {id}), Target(s, s.jobs[id]), Nowhere)
  }

  function RunJob(s: Realm, id: nat, first: Reply, second: Reply): Realm
    requires Enabled(s, RunTask(id, first, second))
  {
    var job := s.jobs[id];
    var c := Target(s, job);
    var rest := Dequeue(s, id);
    match job
    case Fulfilled(p, i, v) =>
      (match s.nodes[p].subs[i]
       case Adopt(_) => if Known(s, v) then OnAdopted(rest, c, v) else rest
       case Then(_, reject, _) => OnFulfilled(rest, c, reject, v, first, second))
    case Declined(p, i, e) =>
      (match s.nodes[p].subs[i]
       case Adopt(_) => OnAdoptedRejection(rest, c, e)
       case Then(_, _, _) => OnDeclined(rest, c, e, first))
    case Propagate(_, _, e) => Refuse(rest, c, e)
    case ResolveWith(_, _, v) => Resolve(rest, c, v)
    case RejectWith(_, _, e) => Decline(rest, c, e)
    case Execute(_) =>
      var Given(v, ok) := s.nodes[c].origin;
      if ok then Deliver(rest, c, v) else Refuse(rest, c, v)
    case Poll(_) => OnPoll(rest, c)
  }

  function Do(s: Realm, step: Step): Realm
    requires Enabled(s, step)
  {
    match step
    case Create => Append(s, Outside, Nowhere)
    case CallResolve(p, v) => if Refuses(p, v) then s else Resolve(s, p, v)
    case CallReject(p, v) => Decline(s, p, v)
    case Subscribe(p, fulfil, reject) => ThenStep(s, p, fulfil, reject)
    case Give(v, ok) => GivePromise(s, v, ok)
    case All(items) => AddJob(Append(s, AllOf(items), InJob(s.next)), Poll(|s.nodes|))
    case RunTask(id, first, second) => RunJob(s, id, first, second)
  }

  ghost predicate Runs(s: Realm, steps: seq<Step>, s': Realm)
    decreases |steps|
  {
    if steps == [] then s == s'
    else Enabled(s, steps[0]) && Runs(Do(s, steps[0]), steps[1..], s')
  }

  predicate Init(s: Realm) {
    s == Realm([], map[], 0)
  }
}
