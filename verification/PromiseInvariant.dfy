/** The invariant of the promise graph, and its preservation by every step. */
module PromiseInvariant {
  import opened Promises

  /**
   * What the calls recorded for child `c` say about its fate, given its parent's final state and
   * which handlers it was created with.
   */
  predicate Explains(state: State, fulfil: bool, reject: bool, calls: seq<Call>, fate: Fate, c: Pid) {
    match state
    case Pending => false
    case Resolved(value) =>
      && fulfil && calls != [] && calls[0].Fulfil? && calls[0].arg == value
      && (var thrown := Thrown(c, calls[0].reply);
          if thrown == [] then |calls| == 1 && fate == Takes(calls[0].reply.value)
          else if !reject then |calls| == 1 && fate == Fails(thrown[0])
          else
            && |calls| == 2 && calls[1].Reject? && calls[1].arg == thrown[0]
            && fate == if Thrown(c, calls[1].reply) == [] then Takes(calls[1].reply.value) else Lost)
    case Rejected(reason) =>
      if reject then
        && |calls| == 1 && calls[0].Reject? && calls[0].arg == reason
        && (var thrown := Thrown(c, calls[0].reply);
            fate == if thrown == [] then Takes(calls[0].reply.value)
                    else if CarriesProperty(thrown[0]) then Fails(thrown[0]) else Lost)
      else fulfil && calls == [] && fate == Fails(reason)
  }

  /** A rejected promise passed its reason on to `c`: `c` waited, and no entry that waited had a reject handler. */
  predicate PassesOn(node: Node, c: Pid) {
    && !AnyReject(node.waited)
    && exists i :: 0 <= i < |node.waited| && node.waited[i].HasResolve() && node.waited[i].child == c
  }

  /** Every promise of the list is resolved, and `values` lists their values and the plain items. */
  predicate Collects(s: Realm, items: seq<Value>, values: seq<Value>) {
    && |values| == |items| && Undefined !in items
    && forall i :: 0 <= i < |items| ==>
         if items[i].Ref? then Has(s, items[i].id) && s.nodes[items[i].id].state == Resolved(values[i])
         else values[i] == items[i]
  }

  /** A missing item is a TypeError; otherwise the reason is that of a rejected promise of the list. */
  predicate BlamesMember(s: Realm, items: seq<Value>, reason: Value) {
    if Undefined in items then reason == TYPE_ERROR
    else exists i :: 0 <= i < |items| && items[i].Ref? && Has(s, items[i].id) && s.nodes[items[i].id].state == Rejected(reason)
  }

  /** The fate of a promise fits the way it was made. */
  predicate OriginOk(s: Realm, c: Pid)
    requires Has(s, c)
  {
    var node := s.nodes[c];
    match node.origin
    case Outside => node.fate == Open
    case ChildOf(p, fulfil, reject) =>
      && p < c
      && (node.fate == Open ==> node.calls == [])
      && (node.fate != Open ==> Explains(s.nodes[p].state, fulfil, reject, node.calls, node.fate, c))
      && (node.fate != Open && s.nodes[p].state.Rejected? && !reject ==> PassesOn(s.nodes[p], c))
    case Given(v, ok) =>
      && (v.Ref? ==> v.id < c)
      && (node.fate == Open || node.fate == if ok then Takes(v) else Fails(v))
    case AllOf(items) =>
      && (forall i :: 0 <= i < |items| ==> Known(s, items[i]))
      && match node.fate
         case Open => true
         case Takes(v) => v.List? && Collects(s, items, v.items)
         case Fails(e) => BlamesMember(s, items, e)
         case Lost => false
  }

  /** The state of a promise is what its fate says, adopted promises passing on exactly what they have. */
  predicate FateOk(s: Realm, c: Pid)
    requires Has(s, c)
  {
    var node := s.nodes[c];
    && node.broadcasts == (if node.state.Pending? then 0 else 1) && node.waited <= node.subs
    && (node.fate.Takes? ==> Known(s, node.fate.value))
    && match node.state
       case Pending => true
       case Resolved(v) => !v.Ref? && (Internal(s, c) ==> Earns(s, node.fate, v))
       case Rejected(e) => Known(s, e) && (Internal(s, c) ==> EarnsRejection(s, node.fate, e))
  }

  predicate Earns(s: Realm, fate: Fate, v: Value) {
    && fate.Takes?
    && if fate.value.Ref? then Has(s, fate.value.id) && s.nodes[fate.value.id].state == Resolved(v) else fate.value == v
  }

  predicate EarnsRejection(s: Realm, fate: Fate, e: Value) {
    || fate == Fails(e)
    || (fate.Takes? && fate.value.Ref? && Has(s, fate.value.id) && s.nodes[fate.value.id].state == Rejected(e))
  }

  /** Where the one chance of a promise is. `busy` is the promise whose task is running, if any. */
  predicate PlaceOk(s: Realm, c: Pid, busy: set<Pid>)
    requires Has(s, c)
  {
    var node := s.nodes[c];
    if node.origin.Outside? then node.where == Nowhere
    else
      match node.where
      case At(p, i) =>
        && c !in busy && node.state.Pending?
        && Has(s, p) && s.nodes[p].state.Pending? && i < |s.nodes[p].subs| && s.nodes[p].subs[i].child == c
      case InJob(id) =>
        c !in busy && node.state.Pending? && id in s.jobs && JobValid(s, s.jobs[id]) && Target(s, s.jobs[id]) == c
      case Nowhere =>
        if c in busy then node.state.Pending?
        else if node.fate.Open? then node.state.Pending? && Abandoned(s, c)
        else node.state.Pending? == node.fate.Lost?
  }

  /** A child that its parent's outcome has no use for: nothing will ever settle it. */
  predicate Abandoned(s: Realm, c: Pid)
    requires Has(s, c)
  {
    match s.nodes[c].origin
    case ChildOf(p, fulfil, reject) =>
      && Has(s, p)
      && ((s.nodes[p].state.Resolved? && !fulfil) || (s.nodes[p].state.Rejected? && !reject && !PassesOn(s.nodes[p], c)))
    case _ => false
  }

  /** An entry names a promise made for it, or one that took this promise as its value. */
  predicate EntryOk(s: Realm, p: Pid, i: nat)
    requires Has(s, p) && i < |s.nodes[p].subs|
  {
    var entry := s.nodes[p].subs[i];
    var c := entry.child;
    && Has(s, c) && c != p
    && match entry
       case Then(fulfil, reject, _) =>
         && s.nodes[c].origin == ChildOf(p, fulfil, reject)
         && (s.nodes[p].state.Pending? ==> s.nodes[c].where == At(p, i) && s.nodes[c].fate == Open)
       case Adopt(_) =>
         Internal(s, c) ==>
           && s.nodes[c].fate == Takes(Ref(p))
           && (s.nodes[p].state.Pending? ==> s.nodes[c].where == At(p, i))
  }

  predicate JobOk(s: Realm, id: nat)
    requires id in s.jobs
  {
    var job := s.jobs[id];
    && id < s.next && JobValid(s, job)
    && (var c := Target(s, job);
        && (Internal(s, c) ==> s.nodes[c].where == InJob(id))
        && match job
           case Fulfilled(p, i, v) =>
             && s.nodes[p].state == Resolved(v) && s.nodes[p].subs[i].HasResolve()
             && (s.nodes[p].subs[i].Then? ==> s.nodes[c].fate == Open)
           case Declined(p, i, e) =>
             && s.nodes[p].state == Rejected(e) && s.nodes[p].subs[i].HasReject()
             && (s.nodes[p].subs[i].Then? ==> s.nodes[c].fate == Open)
           case Propagate(p, i, e) =>
             && s.nodes[p].state == Rejected(e) && s.nodes[p].subs[i].Then?
             && s.nodes[p].subs[i].fulfil && !s.nodes[p].subs[i].reject && s.nodes[c].fate == Open
             && PassesOn(s.nodes[p], c)
           case ResolveWith(_, q, v) =>
             Has(s, q) && s.nodes[q].state == Resolved(v) && (Internal(s, c) ==> s.nodes[c].fate == Takes(Ref(q)))
           case RejectWith(_, q, e) =>
             Has(s, q) && s.nodes[q].state == Rejected(e) && (Internal(s, c) ==> s.nodes[c].fate == Takes(Ref(q)))
           case Execute(_) => s.nodes[c].fate == Open
           case Poll(_) => s.nodes[c].fate == Open)
  }

  predicate NodeOk(s: Realm, c: Pid, busy: set<Pid>)
    requires Has(s, c)
  {
    PlaceOk(s, c, busy) && FateOk(s, c) && OriginOk(s, c)
  }

  ghost predicate Ok(s: Realm, busy: set<Pid>) {
    && (forall c {:trigger NodeOk(s, c, busy)} :: 0 <= c < |s.nodes| ==> NodeOk(s, c, busy))
    && (forall p, i {:trigger EntryOk(s, p, i)} :: 0 <= p < |s.nodes| && 0 <= i < |s.nodes[p].subs| ==> EntryOk(s, p, i))
    && (forall id {:trigger JobOk(s, id)} :: id in s.jobs ==> JobOk(s, id))
  }

  // ---- settling

  ghost predicate MaySettle(s: Realm, p: Pid, state: State, busy: set<Pid>) {
    && Has(s, p) && s.nodes[p].state.Pending? && busy == (if Internal(s, p) then {p} else {})
    && match state
       case Pending => false
       case Resolved(v) => !v.Ref? && (Internal(s, p) ==> Earns(s, s.nodes[p].fate, v))
       case Rejected(e) => Known(s, e) && (Internal(s, p) ==> EarnsRejection(s, s.nodes[p].fate, e))
  }

  predicate NodeBecomes(s: Realm, p: Pid, state: State, s': Realm, c: Pid)
    requires Has(s, p) && Has(s, c)
  {
    && Has(s', c)
    && s'.nodes[c] == s.nodes[c].(where := Moved(s.nodes[c].where, p, s.nodes[p].subs, state, s.next, |s.nodes[p].subs|),
                                  state := if c == p then state else s.nodes[c].state,
                                  broadcasts := s.nodes[c].broadcasts + if c == p then 1 else 0,
                                  waited := if c == p then s.nodes[p].subs else s.nodes[c].waited)
  }

  predicate OldJobKept(s: Realm, s': Realm, id: nat) {
    id in s.jobs && id in s'.jobs && s'.jobs[id] == s.jobs[id]
  }

  predicate JobAdded(s: Realm, p: Pid, state: State, s': Realm, i: nat)
    requires Has(s, p) && !state.Pending?
  {
    && i < |s.nodes[p].subs| && Chosen(s.nodes[p].subs, state, i)
    && s.next + i in s'.jobs && s'.jobs[s.next + i] == JobFor(s.nodes[p].subs, p, state, i)
  }

  /** What settling `p` changes: its state, its waiting children, and the tasks for the chosen ones. */
  ghost predicate Becomes(s: Realm, p: Pid, state: State, s': Realm)
    requires Has(s, p) && !state.Pending?
  {
    && |s'.nodes| == |s.nodes| && s'.next == s.next + |s.nodes[p].subs|
    && (forall c {:trigger s'.nodes[c]} {:trigger s.nodes[c]} :: 0 <= c < |s.nodes| ==> NodeBecomes(s, p, state, s', c))
    && (forall id {:trigger s.jobs[id]} {:trigger id in s.jobs} :: id in s.jobs && id < s.next ==> OldJobKept(s, s', id))
    && (forall i {:trigger JobAdded(s, p, state, s', i)} ::
          0 <= i < |s.nodes[p].subs| && Chosen(s.nodes[p].subs, state, i) ==> JobAdded(s, p, state, s', i))
    && (forall id {:trigger id in s'.jobs} :: id in s'.jobs ==> id in s.jobs || (id >= s.next && JobAdded(s, p, state, s', id - s.next)))
  }

  lemma SettleNode(s: Realm, p: Pid, state: State, c: Pid)
    requires Has(s, p) && !state.Pending? && Has(s, c)
    ensures NodeBecomes(s, p, state, Settle(s, p, state), c)
  {
  }

  lemma SettleJobs(s: Realm, p: Pid, state: State)
    requires Has(s, p) && !state.Pending?
    ensures var subs := s.nodes[p].subs; var s' := Settle(s, p, state);
            s'.jobs == s.jobs + NewJobs(subs, p, state, s.next, |subs|) && s'.next == s.next + |subs|
            && |s'.nodes| == |s.nodes|
  {
  }

  lemma SettleBecomes(s: Realm, p: Pid, state: State)
    requires Has(s, p) && !state.Pending?
    ensures Becomes(s, p, state, Settle(s, p, state))
  {
    SettleJobs(s, p, state);
    SettleNodes(s, p, state);
    PartsBecome(s, p, state, Settle(s, p, state), NewJobs(s.nodes[p].subs, p, state, s.next, |s.nodes[p].subs|));
  }

  lemma PartsBecome(s: Realm, p: Pid, state: State, s': Realm, added: map<nat, Job>)
    requires Has(s, p) && !state.Pending? && s'.jobs == s.jobs + added
    requires |s'.nodes| == |s.nodes| && s'.next == s.next + |s.nodes[p].subs|
    requires forall c :: 0 <= c < |s.nodes| ==> NodeBecomes(s, p, state, s', c)
    requires forall id :: id in added <==>
               s.next <= id < s.next + |s.nodes[p].subs| && Chosen(s.nodes[p].subs, state, id - s.next)
    requires forall id :: id in added ==> added[id] == JobFor(s.nodes[p].subs, p, state, id - s.next)
    ensures Becomes(s, p, state, s')
  {
    JobsBecome(s, p, state, s', added);
  }

  lemma SettleNodes(s: Realm, p: Pid, state: State)
    requires Has(s, p) && !state.Pending?
    ensures forall c :: 0 <= c < |s.nodes| ==> NodeBecomes(s, p, state, Settle(s, p, state), c)
  {
    forall c | 0 <= c < |s.nodes|
      ensures NodeBecomes(s, p, state, Settle(s, p, state), c)
    {
      SettleNode(s, p, state, c);
    }
  }

  lemma JobsBecome(s: Realm, p: Pid, state: State, s': Realm, added: map<nat, Job>)
    requires Has(s, p) && !state.Pending? && s'.jobs == s.jobs + added
    requires forall id :: id in added <==>
               s.next <= id < s.next + |s.nodes[p].subs| && Chosen(s.nodes[p].subs, state, id - s.next)
    requires forall id :: id in added ==> added[id] == JobFor(s.nodes[p].subs, p, state, id - s.next)
    ensures forall id :: id in s.jobs && id < s.next ==> OldJobKept(s, s', id)
    ensures forall i :: 0 <= i < |s.nodes[p].subs| && Chosen(s.nodes[p].subs, state, i) ==> JobAdded(s, p, state, s', i)
    ensures forall id :: id in s'.jobs ==> id in s.jobs || (id >= s.next && JobAdded(s, p, state, s', id - s.next))
  {
    forall i | 0 <= i < |s.nodes[p].subs| && Chosen(s.nodes[p].subs, state, i)
      ensures JobAdded(s, p, state, s', i)
    {
      var id := s.next + i;
      assert id - s.next == i && id in added;
    }
    forall id | id in s'.jobs && id !in s.jobs
      ensures id >= s.next && JobAdded(s, p, state, s', id - s.next)
    {
      assert id in added && s.next + (id - s.next) == id;
    }
  }

  lemma RejectIsFound(subs: seq<Entry>, i: nat)
    requires i < |subs| && subs[i].HasReject()
    ensures AnyReject(subs)
  {
  }

  /** A promise whose entry is passed over keeps its open fate for good. */
  lemma PassedOver(s: Realm, p: Pid, state: State, i: nat)
    requires Has(s, p) && i < |s.nodes[p].subs| && EntryOk(s, p, i) && s.nodes[p].state.Pending?
    requires !state.Pending? && !Chosen(s.nodes[p].subs, state, i)
    ensures s.nodes[s.nodes[p].subs[i].child].fate == Open
  {
    if s.nodes[p].subs[i].HasReject() {
      RejectIsFound(s.nodes[p].subs, i);
    }
  }

  lemma SettleMovesChosen(s: Realm, p: Pid, state: State, s': Realm, c: Pid)
    requires Has(s, p) && !state.Pending? && Becomes(s, p, state, s') && Has(s, c) && c != p && Internal(s, c)
    requires s.nodes[c].where.At? && s.nodes[c].where.parent == p && s.nodes[c].state.Pending?
    requires var i := s.nodes[c].where.index;
             i < |s.nodes[p].subs| && s.nodes[p].subs[i].child == c && Chosen(s.nodes[p].subs, state, i)
    ensures PlaceOk(s', c, {})
  {
    var i := s.nodes[c].where.index;
    ChosenTarget(s, p, state, s', i);
    assert s'.nodes[c].where == InJob(s.next + i) && s'.nodes[c].state.Pending?;
  }

  /** Nor does any other entry pass the reason on to it. */
  lemma NotPassedOn(s: Realm, p: Pid, state: State, i: nat, after: Node)
    requires Has(s, p) && i < |s.nodes[p].subs| && after.waited == s.nodes[p].subs
    requires forall k :: 0 <= k < |s.nodes[p].subs| ==> EntryOk(s, p, k)
    requires state.Rejected? && !Chosen(s.nodes[p].subs, state, i)
    ensures !PassesOn(after, s.nodes[p].subs[i].child)
  {
    var subs := s.nodes[p].subs;
    forall k | 0 <= k < |subs| && subs[k].child == subs[i].child && subs[k].HasResolve()
      ensures AnyReject(subs)
    {
      assert EntryOk(s, p, k) && EntryOk(s, p, i);
      if subs[k].HasReject() {
        RejectIsFound(subs, k);
      }
    }
  }

  lemma SettleLeavesOther(s: Realm, p: Pid, state: State, s': Realm, c: Pid)
    requires Has(s, p) && !state.Pending? && Becomes(s, p, state, s') && Has(s, c) && c != p && Internal(s, c)
    requires s.nodes[c].where.At? && s.nodes[c].where.parent == p && s.nodes[c].state.Pending?
    requires var i := s.nodes[c].where.index; i < |s.nodes[p].subs| && !Chosen(s.nodes[p].subs, state, i)
    requires s.nodes[c].fate == Open && s.nodes[p].subs[s.nodes[c].where.index].child == c
    requires forall k :: 0 <= k < |s.nodes[p].subs| ==> EntryOk(s, p, k)
    requires s.nodes[p].state.Pending?
    ensures PlaceOk(s', c, {})
  {
    var i := s.nodes[c].where.index;
    if s.nodes[p].subs[i].HasReject() {
      RejectIsFound(s.nodes[p].subs, i);
    }
    if state.Rejected? {
      NotPassedOn(s, p, state, i, s'.nodes[p]);
    }
    assert EntryOk(s, p, i) && Abandoned(s', c);
    assert s'.nodes[c].where == Nowhere && s'.nodes[c].state.Pending? && s'.nodes[c].fate == Open;
  }

  /** A promise waiting in the settled promise's list goes with its task, or is left for good. */
  lemma SettleMovesChild(s: Realm, p: Pid, state: State, s': Realm, busy: set<Pid>, c: Pid)
    requires Ok(s, busy) && MaySettle(s, p, state, busy) && Becomes(s, p, state, s')
    requires Has(s, c) && s.nodes[c].where.At? && s.nodes[c].where.parent == p
    ensures PlaceOk(s', c, {})
  {
    assert NodeOk(s, c, busy);
    var i := s.nodes[c].where.index;
    assert EntryOk(s, p, i);
    if Chosen(s.nodes[p].subs, state, i) {
      SettleMovesChosen(s, p, state, s', c);
    } else {
      PassedOver(s, p, state, i);
      SettleLeavesOther(s, p, state, s', c);
    }
  }

  lemma ChosenTarget(s: Realm, p: Pid, state: State, s': Realm, i: nat)
    requires Has(s, p) && !state.Pending? && Becomes(s, p, state, s')
    requires i < |s.nodes[p].subs| && Chosen(s.nodes[p].subs, state, i) && Has(s, s.nodes[p].subs[i].child)
    ensures s.next + i in s'.jobs && JobValid(s', s'.jobs[s.next + i])
    ensures Target(s', s'.jobs[s.next + i]) == s.nodes[p].subs[i].child
  {
    assert JobAdded(s, p, state, s', i);
    assert s'.nodes[p].subs == s.nodes[p].subs;
  }

  lemma SettleKeepsPlace(s: Realm, p: Pid, state: State, s': Realm, busy: set<Pid>, c: Pid)
    requires Ok(s, busy) && MaySettle(s, p, state, busy) && Becomes(s, p, state, s')
    requires Has(s, c) && !(s.nodes[c].where.At? && s.nodes[c].where.parent == p)
    ensures PlaceOk(s', c, {})
  {
    assert NodeOk(s, c, busy);
    if s.nodes[c].where.InJob? {
      SettleKeepsTarget(s, p, state, s', busy, s.nodes[c].where.id);
    }
  }

  lemma SettleKeepsTarget(s: Realm, p: Pid, state: State, s': Realm, busy: set<Pid>, id: nat)
    requires Ok(s, busy) && MaySettle(s, p, state, busy) && Becomes(s, p, state, s') && id in s.jobs
    ensures id in s'.jobs && s'.jobs[id] == s.jobs[id] && JobValid(s', s'.jobs[id])
            && JobValid(s, s.jobs[id]) && Target(s', s'.jobs[id]) == Target(s, s.jobs[id])
  {
    assert JobOk(s, id) && OldJobKept(s, s', id);
  }

  lemma SettleKeepsPlaces(s: Realm, p: Pid, state: State, s': Realm, busy: set<Pid>)
    requires Ok(s, busy) && MaySettle(s, p, state, busy) && Becomes(s, p, state, s')
    ensures forall c :: 0 <= c < |s'.nodes| ==> PlaceOk(s', c, {})
  {
    forall c | 0 <= c < |s.nodes|
      ensures PlaceOk(s', c, {})
    {
      if s.nodes[c].where.At? && s.nodes[c].where.parent == p {
        SettleMovesChild(s, p, state, s', busy, c);
      } else {
        SettleKeepsPlace(s, p, state, s', busy, c);
      }
    }
  }

  lemma SettleKeepsNodes(s: Realm, p: Pid, state: State, s': Realm, busy: set<Pid>)
    requires Ok(s, busy) && MaySettle(s, p, state, busy) && Becomes(s, p, state, s')
    ensures forall c :: 0 <= c < |s'.nodes| ==> FateOk(s', c) && OriginOk(s', c)
  {
    forall c | 0 <= c < |s'.nodes|
      ensures FateOk(s', c) && OriginOk(s', c)
    {
      assert NodeOk(s, c, busy);
    }
  }

  lemma SettleKeepsEntries(s: Realm, p: Pid, state: State, s': Realm, busy: set<Pid>)
    requires Ok(s, busy) && MaySettle(s, p, state, busy) && Becomes(s, p, state, s')
    ensures forall q, i :: 0 <= q < |s'.nodes| && 0 <= i < |s'.nodes[q].subs| ==> EntryOk(s', q, i)
  {
    forall q, i | 0 <= q < |s'.nodes| && 0 <= i < |s'.nodes[q].subs|
      ensures EntryOk(s', q, i)
    {
      assert EntryOk(s, q, i);
    }
  }

  lemma SettleKeepsJob(s: Realm, p: Pid, state: State, s': Realm, busy: set<Pid>, id: nat)
    requires Ok(s, busy) && MaySettle(s, p, state, busy) && Becomes(s, p, state, s') && id in s.jobs
    ensures id in s'.jobs && JobOk(s', id)
  {
    SettleKeepsTarget(s, p, state, s', busy, id);
    assert JobOk(s, id);
  }

  lemma ChosenWaits(s: Realm, p: Pid, state: State, s': Realm, busy: set<Pid>, i: nat)
    requires Ok(s, busy) && MaySettle(s, p, state, busy) && Becomes(s, p, state, s')
    requires i < |s.nodes[p].subs| && Chosen(s.nodes[p].subs, state, i)
    ensures var entry := s.nodes[p].subs[i]; var c := entry.child;
            && Has(s, c) && Has(s', c) && s'.nodes[p].subs == s.nodes[p].subs && s'.nodes[p].state == state
            && s'.nodes[p].waited == s.nodes[p].subs
            && (Internal(s', c) ==> s'.nodes[c].where == InJob(s.next + i))
            && (entry.Then? ==> s'.nodes[c].fate == Open)
  {
    assert EntryOk(s, p, i);
  }

  lemma SettleAddsJob(s: Realm, p: Pid, state: State, s': Realm, busy: set<Pid>, i: nat)
    requires Ok(s, busy) && MaySettle(s, p, state, busy) && Becomes(s, p, state, s')
    requires i < |s.nodes[p].subs| && Chosen(s.nodes[p].subs, state, i)
    ensures s.next + i in s'.jobs && JobOk(s', s.next + i)
  {
    ChosenWaits(s, p, state, s', busy, i);
    ChosenTarget(s, p, state, s', i);
    assert JobAdded(s, p, state, s', i);
    NewJobOk(s', s.next + i, s.nodes[p].subs, p, state, i);
  }

  lemma NewJobOk(s: Realm, id: nat, subs: seq<Entry>, p: Pid, state: State, i: nat)
    requires Has(s, p) && s.nodes[p].subs == s.nodes[p].waited == subs && s.nodes[p].state == state && !state.Pending?
    requires i < |subs| && Has(s, subs[i].child) && Chosen(subs, state, i)
    requires id < s.next && id in s.jobs && s.jobs[id] == JobFor(subs, p, state, i)
    requires Internal(s, subs[i].child) ==> s.nodes[subs[i].child].where == InJob(id)
    requires subs[i].Then? ==> s.nodes[subs[i].child].fate == Open
    ensures JobOk(s, id)
  {
    if subs[i].HasReject() {
      RejectIsFound(subs, i);
    }
  }

  lemma SettleKeepsJobs(s: Realm, p: Pid, state: State, s': Realm, busy: set<Pid>)
    requires Ok(s, busy) && MaySettle(s, p, state, busy) && Becomes(s, p, state, s')
    ensures forall id :: id in s'.jobs ==> JobOk(s', id)
  {
    forall id | id in s'.jobs
      ensures JobOk(s', id)
    {
      if id in s.jobs {
        SettleKeepsJob(s, p, state, s', busy, id);
      } else {
        assert id >= s.next && JobAdded(s, p, state, s', id - s.next);
        SettleAddsJob(s, p, state, s', busy, id - s.next);
      }
    }
  }

  lemma SettleKeepsOk(s: Realm, p: Pid, state: State, busy: set<Pid>)
    requires Ok(s, busy) && MaySettle(s, p, state, busy)
    ensures Ok(Settle(s, p, state), {})
  {
    var s' := Settle(s, p, state);
    SettleBecomes(s, p, state);
    SettleKeepsPlaces(s, p, state, s', busy);
    SettleKeepsNodes(s, p, state, s', busy);
    SettleKeepsEntries(s, p, state, s', busy);
    SettleKeepsJobs(s, p, state, s', busy);
  }
}
