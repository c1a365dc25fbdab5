/** Workers, plan states and plans. The three refer to each other (a state's
    owner is a worker, whose `init_plan` is the plan being built, whose
    `state` is a state), so they share one module. */
module Plans {
  import opened Values
  import opened Strings
  import opened Dicts
  import opened Placeholders
  import opened StateSpec
  import opened PlanHelpers

  /** Where a plan pointer points: one worker, or a tuple of them. */
  datatype Location = At(worker: Worker) | AtAll(workers: seq<Worker>)

  /** The remote id of a plan pointer: the plan's id at one worker, or the
      list of those ids for a multi-location pointer. */
  datatype PointerId = OneId(id: Id) | ManyIds(ids: seq<PointerId>)

  class PointerPlan {
    const location: Location
    const idAtLocation: PointerId

    constructor (location: Location, idAtLocation: PointerId)
      ensures this.location == location && this.idAtLocation == idAtLocation
    {
      this.location := location;
      this.idAtLocation := idAtLocation;
    }
  }

  /** The parts of a worker the plan code uses: the plan being built, the
      object registry, and a record of the plans it sent. */
  class Worker {
    const id: Id
    var initPlan: Plan?
    var objects: map<Id, Value>
    var sentTo: seq<Worker>

    constructor (id: Id)
      ensures this.id == id && initPlan == null && objects == map[] && sentTo == []
    {
      this.id := id;
      initPlan := null;
      objects := map[];
      sentTo := [];
    }

    /** `register_obj(obj, obj_id)`. */
    method RegisterObj(obj: Value, objId: Id)
      modifies this`objects
      ensures objects == old(objects)[objId := obj]
    {
      objects := objects[objId := obj];
    }

    /** The registration loop of `State.detail`: `register_obj(e, obj_id=e.id)`
        for each element in turn; the first None stops it (its `.id` raises an
        AttributeError), with `ok` false. */
    method RegisterEach(es: seq<Option<Value>>) returns (ok: bool)
      modifies this`objects
      ensures ok <==> FirstNone(es) == |es|
      ensures objects == RegisterAll(old(objects), Present(es[..FirstNone(es)]))
    {
      var i := 0;
      while i < |es| && es[i].Some?
        invariant 0 <= i <= FirstNone(es)
        invariant objects == RegisterAll(old(objects), Present(es[..i]))
      {
        var e := es[i].value;
        RegisterObj(e, e.id);
        assert Present(es[..i + 1])[..i] == Present(es[..i]);
        i := i + 1;
      }
      ok := i == |es|;
    }

    /** `send(plan, workers=location)`: records the send and returns a new
        pointer whose remote id is the plan's id, as `Plan.create_pointer`
        defaults it. */
    method SendPlan(plan: Plan, location: Worker) returns (ptr: PointerPlan)
      modifies this`sentTo
      ensures fresh(ptr)
      ensures ptr.location == At(location) && ptr.idAtLocation == OneId(plan.id)
      ensures sentTo == old(sentTo) + [location]
    {
      ptr := new PointerPlan(At(location), OneId(plan.id));
      sentTo := sentTo + [location];
    }
  }

  /** `q` is the copy of `src` that `read` promotes into slot `n` of the
      parent: tags `#inner`, `#state`, `#{n}`, the same child, no owner, no
      description, and the identity `id` handed out for it. */
  ghost predicate PromotedCopy(q: Placeholder, src: Placeholder, n: nat, id: Id)
    reads q, src
  {
    && q.tags == PromotedTags(n)
    && q.child == src.child
    && q.owner == None && q.description == None
    && q.id == id
  }

  /** `p` is the placeholder `__init__` and `__setattr__` make for `tensor` in
      slot `n`: tags `#state` and `#{n}`, bound to the tensor, no owner, no
      description, and the identity `id` handed out for it. */
  ghost predicate StateSlot(p: Placeholder, tensor: Value, n: nat, id: Id)
    reads p
  {
    && p.tags == ["#state", SlotTag(n)]
    && p.child == Some(Unwrap(tensor))
    && p.owner == None && p.description == None
    && p.id == id
  }

  /** `placeholder.copy()`, its tags cleared and then tagged `#inner`,
      `#state`, `#{n}`: the promoted copy for slot `n`. */
  method CopyRetagged(src: Placeholder, n: nat, provider: IdProvider) returns (q: Placeholder)
    modifies provider
    ensures fresh(q) && PromotedCopy(q, src, n, old(provider.next))
    ensures provider.next == old(provider.next) + 1
  {
    q := src.Copy(provider);
    q.tags := [];
    var tags := AddTags(q.tags, PromotedTags(n));
    PromotedTagsExact(n);
    q.tags := tags;
  }

  class State {
    const owner: Worker
    var statePlaceholders: seq<Placeholder>

    /** `State(owner, state_placeholders)`; a missing list is the empty list. */
    constructor (owner: Worker, statePlaceholders: seq<Placeholder>)
      ensures this.owner == owner && this.statePlaceholders == statePlaceholders
    {
      this.owner := owner;
      this.statePlaceholders := statePlaceholders;
    }

    /** `tensors()`: the children of all placeholders, in order, unfiltered. */
    method Tensors() returns (ts: seq<Option<Value>>)
      ensures |ts| == |statePlaceholders|
      ensures forall i :: 0 <= i < |ts| ==> ts[i] == statePlaceholders[i].child
    {
      ts := [];
      var i := 0;
      while i < |statePlaceholders|
        invariant 0 <= i <= |statePlaceholders| && |ts| == i
        invariant forall k :: 0 <= k < i ==> ts[k] == statePlaceholders[k].child
      {
        ts := ts + [statePlaceholders[i].child];
        i := i + 1;
      }
    }

    /** `copy()`: a new state with the same owner over a new list holding the
        same placeholder objects in the same order. */
    method Copy() returns (s: State)
      ensures fresh(s)
      ensures s != this && s.owner == owner && s.statePlaceholders == statePlaceholders
    {
      s := new State(owner, statePlaceholders);
    }

    /** The children `read` returns, one loop over the placeholders. */
    method LocalTensors() returns (ts: seq<Option<Value>>)
      ensures ts == LocalChildren(statePlaceholders)
    {
      ts := [];
      var i := 0;
      while i < |statePlaceholders|
        invariant 0 <= i <= |statePlaceholders|
        invariant ts == LocalChildren(statePlaceholders[..i])
      {
        assert statePlaceholders[..i + 1][..i] == statePlaceholders[..i];
        if "#inner" !in statePlaceholders[i].tags {
          ts := ts + [statePlaceholders[i].child];
        }
        i := i + 1;
      }
      assert statePlaceholders[..i] == statePlaceholders;
    }

    /** `read()`. While the owner builds a plan whose state is another
        object, every placeholder of this state is copied, retagged as the
        parent's next slot and appended to the parent's state, and the parent
        maps the child's id to the copy. A None child aborts with an
        AttributeError once its copy is appended. The result is the children of
        the placeholders not tagged `#inner`. */
    method Read(provider: IdProvider) returns (r: Result<seq<Option<Value>>>, ghost copies: seq<Placeholder>, ghost ids: seq<Id>)
      modifies provider
      modifies if owner.initPlan != null then {owner.initPlan as object, owner.initPlan.state as object} else {}
      ensures statePlaceholders == old(statePlaceholders)
      ensures forall k :: 0 <= k < |statePlaceholders| ==> unchanged(statePlaceholders[k])
      ensures owner.initPlan == old(owner.initPlan)
      ensures r.Ok? ==> r.value == LocalChildren(statePlaceholders)
      ensures old(owner.initPlan == null || owner.initPlan.state == this) ==>
                && r.Ok? && copies == [] && ids == []
                && provider.next == old(provider.next)
                && (owner.initPlan != null ==> unchanged(owner.initPlan) && unchanged(owner.initPlan.state))
      ensures old(owner.initPlan != null && owner.initPlan.state != this) ==>
                && owner.initPlan.Promoted(statePlaceholders, provider, r.Ok?, copies, ids)
                && (r.Err? ==> r.error == AttributeError("id"))
    {
      copies, ids := [], [];
      var parent: Plan? := owner.initPlan;
      if parent != null && parent.state != this {
        var ok;
        ok, copies, ids := parent.PromoteAll(statePlaceholders, provider);
        if !ok {
          r := Err(AttributeError("id"));
          return;
        }
      }
      var ts := LocalTensors();
      r := Ok(ts);
    }

    /** `set_(state_dict)`: for each key in the dictionary's order, every
        placeholder with that id takes the unwrapped value as its child; the
        rest keep theirs and the list itself is untouched. */
    method Set(d: Dict<Id, Value>)
      modifies statePlaceholders`child
      ensures forall p :: p in statePlaceholders ==> p.child == SetChild(p.id, old(p.child), d.Entries())
    {
      var keys, entries := d.Keys(), d.Entries();
      ElemsMembers(keys);
      var i := 0;
      while i < |keys|
        invariant 0 <= i <= |keys|
        invariant forall p :: p in statePlaceholders ==>
                    p.child == (if p.id in keys[..i] then Some(Unwrap(entries[p.id])) else old(p.child))
      {
        assert keys[..i + 1] == keys[..i] + [keys[i]];
        SetKey(keys[i], entries[keys[i]]);
        i := i + 1;
      }
      assert keys[..i] == keys;
    }

    /** One turn of `set_`'s outer loop: every placeholder with identity
        `key` takes the unwrapped `v` as its child, the others keep theirs. */
    method SetKey(key: Id, v: Value)
      modifies statePlaceholders`child
      ensures forall p :: p in statePlaceholders ==> p.child == if p.id == key then Some(Unwrap(v)) else old(p.child)
    {
      var j := 0;
      while j < |statePlaceholders|
        invariant 0 <= j <= |statePlaceholders|
        invariant forall p :: p in statePlaceholders ==>
                    p.child == if p.id == key && p in statePlaceholders[..j] then Some(Unwrap(v)) else old(p.child)
      {
        assert statePlaceholders[..j + 1] == statePlaceholders[..j] + [statePlaceholders[j]];
        if statePlaceholders[j].id == key {
          var self := statePlaceholders[j].Instantiate(v);
        }
        j := j + 1;
      }
      assert statePlaceholders[..j] == statePlaceholders;
    }

    /** `State.detail(worker, (wires, elements))`: the placeholders come back
        through the global table, owned by `worker`; each element is
        registered with the worker under its own id, and the first None raises
        an AttributeError; then the placeholders are bound to the elements
        pairwise and wrapped in a new state owned by the worker. */
    static method Detail(worker: Worker, hook: Hook, provider: IdProvider, wires: seq<Wire>, elements: seq<Option<Value>>)
      returns (r: Result<State>)
      modifies hook, provider, worker`objects, (set k | k in hook.placeholders :: hook.placeholders[k])`child
      ensures forall k :: k in old(hook.placeholders) ==> k in hook.placeholders && hook.placeholders[k] == old(hook.placeholders[k])
      ensures forall k :: k in hook.placeholders && k !in old(hook.placeholders) ==> k in KeysOf(wires) && fresh(hook.placeholders[k])
      ensures r.Err? <==> FirstNone(elements) < |elements|
      ensures r.Err? ==>
                && r.error == AttributeError("id")
                && worker.objects == RegisterAll(old(worker.objects), Present(elements[..FirstNone(elements)]))
      ensures r.Ok? ==>
                (var ps, vs := r.value.statePlaceholders, Present(elements);
                 && fresh(r.value) && r.value.owner == worker
                 && worker.objects == RegisterAll(old(worker.objects), vs)
                 && |ps| == |wires|
                 && (forall i :: 0 <= i < |wires| ==> Memo(hook.placeholders, wires[i], ps[i]))
                 && (forall i :: 0 <= i < |wires| && New(old(hook.placeholders), wires, i) ==>
                       MadeFrom(ps[i], wires[i], Some(worker.id), old(provider.next)))
                 && (forall i :: 0 <= i < |wires| ==>
                       ps[i].child == ZipChild(ps, vs, ps[i], if TableKey(wires[i].tags) in old(hook.placeholders) then old(hook.placeholders[TableKey(wires[i].tags)].child) else None))
                 && (NoDuplicates(ps) ==> forall i :: 0 <= i < Min(|ps|, |vs|) ==> ps[i].child == Some(Unwrap(vs[i]))))
      ensures r.Err? ==>
                forall k :: k in old(hook.placeholders) ==> old(hook.placeholders[k]).child == old(hook.placeholders[k].child)
      ensures r.Ok? ==>
                forall k :: k in old(hook.placeholders) && old(hook.placeholders[k]) !in r.value.statePlaceholders ==>
                  old(hook.placeholders[k]).child == old(hook.placeholders[k].child)
    {
      var ps := DetailList(Some(worker.id), hook, provider, wires);
      ghost var before := seq(|ps|, i reads ps requires 0 <= i < |ps| => ps[i].child);
      forall i | 0 <= i < |ps|
        ensures before[i] == if TableKey(wires[i].tags) in old(hook.placeholders)
                             then old(hook.placeholders[TableKey(wires[i].tags)].child) else None
      {
      }
      var ok := worker.RegisterEach(elements);
      if ok {
        assert elements[..FirstNone(elements)] == elements;
        var s := Bind(worker, ps, Present(elements));
        r := Ok(s);
      } else {
        r := Err(AttributeError("id"));
      }
    }

    /** The end of `State.detail`: `zip` binds the placeholders to the
        values, and a new state owned by `worker` holds the list. */
    static method Bind(worker: Worker, ps: seq<Placeholder>, vs: seq<Value>) returns (s: State)
      modifies ps`child
      ensures fresh(s) && s.owner == worker && s.statePlaceholders == ps
      ensures forall i :: 0 <= i < |ps| ==> ps[i].child == ZipChild(ps, vs, ps[i], old(ps[i].child))
      ensures NoDuplicates(ps) ==> forall i :: 0 <= i < Min(|ps|, |vs|) ==> ps[i].child == Some(Unwrap(vs[i]))
    {
      InstantiateZip(ps, vs);
      s := new State(worker, ps);
    }

    /** `State.simplify`: the placeholders' wire triples and the bound values. */
    method Simplify() returns (wires: seq<Wire>, elements: seq<Option<Value>>)
      ensures wires == WiresOf(statePlaceholders)
      ensures |elements| == |statePlaceholders|
      ensures forall i :: 0 <= i < |elements| ==> elements[i] == statePlaceholders[i].child
    {
      wires := WiresOf(statePlaceholders);
      elements := Tensors();
    }

    /** `detail(simplify(s))` on a table that holds none of the state's tag
        keys, as the table `Plan.detail` empties first, when the keys are
        distinct, the ids truthy and every placeholder bound: a new state
        owned by the worker whose i-th placeholder is a new one with
        placeholder i's wire form (id, tags, description), bound to
        placeholder i's value unwrapped, and the worker has registered those
        values (`values`) in order. */
    method RoundTrip(worker: Worker, hook: Hook, provider: IdProvider) returns (r: Result<State>, ghost values: seq<Value>)
      requires forall i :: 0 <= i < |statePlaceholders| ==>
                 && TableKey(statePlaceholders[i].tags) !in hook.placeholders
                 && statePlaceholders[i].id != 0 && statePlaceholders[i].child.Some?
      requires forall i, j :: 0 <= i < j < |statePlaceholders| ==>
                 TableKey(statePlaceholders[i].tags) != TableKey(statePlaceholders[j].tags)
      modifies hook, provider, worker`objects, (set k | k in hook.placeholders :: hook.placeholders[k])`child
      ensures |values| == |statePlaceholders|
      ensures forall i :: 0 <= i < |values| ==> values[i] == old(statePlaceholders[i].child.value)
      ensures worker.objects == RegisterAll(old(worker.objects), values)
      ensures r.Ok? && fresh(r.value) && r.value.owner == worker
      ensures |r.value.statePlaceholders| == |statePlaceholders|
      ensures forall i :: 0 <= i < |statePlaceholders| ==>
                var q := r.value.statePlaceholders[i];
                && fresh(q) && q.Simplify() == old(statePlaceholders[i].Simplify()) && q.owner == Some(worker.id)
                && q.child == Some(Unwrap(values[i]))
      ensures forall k :: k in old(hook.placeholders) ==> old(hook.placeholders[k]).child == old(hook.placeholders[k].child)
    {
      var wires, elements := Simplify();
      values := Present(elements);
      r := DetailNew(worker, hook, provider, wires, elements);
    }

    /** `State.detail` on wires with distinct tag keys absent from the table
        and truthy ids, and on values none of which is None: it succeeds,
        registers every value, and the i-th placeholder of the new state is a
        new one that simplifies back to wire i and holds value i
        unwrapped. */
    static method DetailNew(worker: Worker, hook: Hook, provider: IdProvider, wires: seq<Wire>, elements: seq<Option<Value>>)
      returns (r: Result<State>)
      requires |wires| == |elements|
      requires forall i :: 0 <= i < |wires| ==>
                 TableKey(wires[i].tags) !in hook.placeholders && wires[i].id != 0 && elements[i].Some?
      requires forall i, j :: 0 <= i < j < |wires| ==> TableKey(wires[i].tags) != TableKey(wires[j].tags)
      modifies hook, provider, worker`objects, (set k | k in hook.placeholders :: hook.placeholders[k])`child
      ensures worker.objects == RegisterAll(old(worker.objects), Present(elements))
      ensures r.Ok? && fresh(r.value) && r.value.owner == worker
      ensures |r.value.statePlaceholders| == |wires|
      ensures forall i :: 0 <= i < |wires| ==>
                var q := r.value.statePlaceholders[i];
                && fresh(q) && q.Simplify() == wires[i] && q.owner == Some(worker.id)
                && q.child == Some(Unwrap(elements[i].value))
      ensures forall k :: k in old(hook.placeholders) ==> old(hook.placeholders[k]).child == old(hook.placeholders[k].child)
    {
      ghost var table0, lo := hook.placeholders, provider.next;
      r := Detail(worker, hook, provider, wires, elements);
      assert r.Ok?;
      ghost var ps := r.value.statePlaceholders;
      StateBack(table0, hook.placeholders, wires, ps, Present(elements), Some(worker.id), lo);
      forall i | 0 <= i < |ps| ensures fresh(ps[i]) {
        var k := TableKey(wires[i].tags);
        assert k in hook.placeholders && k !in table0 && hook.placeholders[k] == ps[i];
      }
    }
  }

  /** What `State.detail` gives for the wires of a state whose tag keys are
      distinct, absent from the table at the start (`table0`) and carry
      truthy ids: each placeholder is the table's new object for its key,
      owned by the worker, simplifying back to its wire and bound to its
      value unwrapped. */
  lemma StateBack(table0: map<string, Placeholder>, table: map<string, Placeholder>, wires: seq<Wire>,
                  ps: seq<Placeholder>, vs: seq<Value>, worker: Option<Id>, lo: Id)
    requires |ps| == |wires| == |vs|
    requires forall i :: 0 <= i < |wires| ==> Memo(table, wires[i], ps[i])
    requires forall i :: 0 <= i < |wires| && New(table0, wires, i) ==> MadeFrom(ps[i], wires[i], worker, lo)
    requires forall i :: 0 <= i < |wires| ==> TableKey(wires[i].tags) !in table0 && wires[i].id != 0
    requires forall i, j :: 0 <= i < j < |wires| ==> TableKey(wires[i].tags) != TableKey(wires[j].tags)
    requires NoDuplicates(ps) ==> forall i :: 0 <= i < Min(|ps|, |vs|) ==> ps[i].child == Some(Unwrap(vs[i]))
    ensures forall i :: 0 <= i < |ps| ==>
              && ps[i].Simplify() == wires[i] && ps[i].owner == worker && ps[i].child == Some(Unwrap(vs[i]))
  {
    DetailedWires(table0, table, wires, ps, worker, lo);
  }

  /** The locations, in order, that `send` has to send to: those not yet in
      the cache `known` and not already sent to earlier in the same call. */
  function NewLocations(known: set<Worker>, locations: seq<Worker>): seq<Worker>
    decreases |locations|
  {
    if locations == [] then []
    else
      var front := locations[..|locations| - 1];
      var last := locations[|locations| - 1];
      NewLocations(known, front) + (if last in known || last in front then [] else [last])
  }

  /** Each location not cached is sent to exactly once: the sends are the
      uncached locations, without repetition. */
  lemma {:induction false} NewLocationsExactlyOnce(known: set<Worker>, locations: seq<Worker>)
    ensures forall l :: l in NewLocations(known, locations) <==> l in locations && l !in known
    ensures forall a, b :: 0 <= a < b < |NewLocations(known, locations)| ==>
              NewLocations(known, locations)[a] != NewLocations(known, locations)[b]
    decreases |locations|
  {
    if locations != [] {
      var front := locations[..|locations| - 1];
      var last := locations[|locations| - 1];
      assert forall x :: x in locations <==> x in front || x == last;
      NewLocationsExactlyOnce(known, front);
    }
  }

  /** How the locations sent to and the set of seen locations grow by one
      location. */
  lemma SendStep(known: set<Worker>, locations: seq<Worker>, i: nat)
    requires i < |locations|
    ensures forall l :: l in locations[..i + 1] <==> l in locations[..i] || l == locations[i]
    ensures NewLocations(known, locations[..i + 1])
            == NewLocations(known, locations[..i]) + (if locations[i] in known || locations[i] in locations[..i] then [] else [locations[i]])
  {
    assert locations[..i + 1][..i] == locations[..i];
    assert locations[..i + 1] == locations[..i] + [locations[i]];
  }

  /** The pointer cache `after` is `before` with exactly the locations
      `locs` added: the cached pointers stay, and each new location holds a
      pointer to that worker whose remote id is the plan's id `planId`. */
  ghost predicate Cached(before: map<Worker, PointerPlan>, after: map<Worker, PointerPlan>, locs: seq<Worker>, planId: Id) {
    && (forall l :: l in after ==> l in before || l in locs)
    && (forall i :: 0 <= i < |locs| ==> locs[i] in after)
    && (forall l :: l in before ==> l in after && after[l] == before[l])
    && (forall l :: l in after && l !in before ==> after[l].location == At(l) && after[l].idAtLocation == OneId(planId))
  }

  /** The remote id `send` reports for `location`: that of the pointer
      cached for it in `cache`, or else the plan's own id `planId`. */
  function RemoteId(cache: map<Worker, PointerPlan>, location: Worker, planId: Id): PointerId {
    if location in cache then cache[location].idAtLocation else OneId(planId)
  }

  /** Where `send` stands after the locations `locs`: the cache `before`
      became `after` as `Cached` says, the worker was sent the plan once for
      each location that was neither cached nor seen earlier (`sentBefore`
      became `sentAfter`), and `ids` holds, in order, the remote id of each
      location as the cache at the start gives it. */
  ghost predicate Sent(before: map<Worker, PointerPlan>, after: map<Worker, PointerPlan>,
                       sentBefore: seq<Worker>, sentAfter: seq<Worker>,
                       locs: seq<Worker>, ids: seq<PointerId>, planId: Id) {
    && Cached(before, after, locs, planId)
    && sentAfter == sentBefore + NewLocations(before.Keys, locs)
    && |ids| == |locs|
    && forall j :: 0 <= j < |locs| ==> ids[j] == RemoteId(before, locs[j], planId)
  }

  /** One more location handled by `send`: the cache either had it (and
      is unchanged) or gains a pointer for it. Either way the remote id of
      that location is the one the cache at the start gives. */
  lemma CachedStep(before: map<Worker, PointerPlan>, mid: map<Worker, PointerPlan>, after: map<Worker, PointerPlan>,
                   locs: seq<Worker>, i: nat, p: PointerPlan, planId: Id)
    requires i < |locs| && Cached(before, mid, locs[..i], planId)
    requires locs[i] in mid ==> after == mid && p == mid[locs[i]]
    requires locs[i] !in mid ==> after == mid[locs[i] := p] && p.location == At(locs[i]) && p.idAtLocation == OneId(planId)
    ensures Cached(before, after, locs[..i + 1], planId)
    ensures locs[i] in mid <==> locs[i] in before || locs[i] in locs[..i]
    ensures p.idAtLocation == RemoteId(before, locs[i], planId)
  {
    assert locs[..i + 1] == locs[..i] + [locs[i]];
  }

  /** The same step, with the sends and the remote ids as well: nothing is
      sent for a cached location, the plan is sent once to a new one. */
  lemma SentStep(before: map<Worker, PointerPlan>, mid: map<Worker, PointerPlan>, after: map<Worker, PointerPlan>,
                 sentBefore: seq<Worker>, sentMid: seq<Worker>, sentAfter: seq<Worker>,
                 locs: seq<Worker>, i: nat, ids: seq<PointerId>, p: PointerPlan, planId: Id)
    requires i < |locs| && Sent(before, mid, sentBefore, sentMid, locs[..i], ids, planId)
    requires locs[i] in mid ==> after == mid && sentAfter == sentMid && p == mid[locs[i]]
    requires locs[i] !in mid ==>
               && after == mid[locs[i] := p] && sentAfter == sentMid + [locs[i]]
               && p.location == At(locs[i]) && p.idAtLocation == OneId(planId)
    ensures Sent(before, after, sentBefore, sentAfter, locs[..i + 1], ids + [p.idAtLocation], planId)
  {
    CachedStep(before, mid, after, locs, i, p, planId);
    SendStep(before.Keys, locs, i);
    var next, ids' := locs[..i + 1], ids + [p.idAtLocation];
    forall j | 0 <= j < |next| ensures ids'[j] == RemoteId(before, next[j], planId) {
      if j < i {
        assert next[j] == locs[..i][j];
      }
    }
  }

  /** The tags `add_placeholder` gives a new placeholder in slot `n`. */
  function AddedTags(n: nat, input: bool, outputIndex: Option<nat>): seq<string> {
    [SlotTag(n)]
    + (if input then ["#input"] else [])
    + (if outputIndex.Some? then ["#output-" + NatToString(outputIndex.value)] else [])
  }

  /** `#input` is not a slot tag. */
  lemma InputTagNew(n: nat)
    ensures AddTag([SlotTag(n)], "#input") == AddedTags(n, true, None)
  {
    SlotTagShape(n);
    assert SlotTag(n)[1] != "#input"[1];
  }

  /** An output tag is neither a slot tag nor `#input`. */
  lemma OutputTagNew(n: nat, index: nat, input: bool)
    ensures AddTag(AddedTags(n, input, None), "#output-" + NatToString(index)) == AddedTags(n, input, Some(index))
  {
    var tag := "#output-" + NatToString(index);
    SlotTagShape(n);
    assert tag[1] == 'o';
    assert SlotTag(n)[1] != tag[1] && "#input"[1] != tag[1];
    assert tag !in AddedTags(n, input, None);
  }

  /** What `add_placeholder` keeps track of on a plan: the key order and the
      mapping of the dictionary from tensor id to placeholder, the slot
      counter and the input and output lists. */
  datatype Slots = Slots(keys: seq<Id>, entries: map<Id, Placeholder>, count: nat, inputs: seq<Placeholder>, outputs: seq<Placeholder>)

  /** The placeholders stored in `m` under the keys `ks`, in order; with
      `Some(ids)` only those whose key is one of `ids`. */
  function Stored(m: map<Id, Placeholder>, ks: seq<Id>, only: Option<seq<Id>>): seq<Placeholder>
    decreases |ks|
  {
    if ks == [] then []
    else
      var k := ks[|ks| - 1];
      Stored(m, ks[..|ks| - 1], only) + (if k in m && (only.None? || k in only.value) then [m[k]] else [])
  }

  /** The keys added to the table of `a` to give that of `b`. */
  ghost function Added(a: Slots, b: Slots): seq<Id> {
    var ka, kb := a.keys, b.keys;
    if |ka| <= |kb| then kb[|ka|..] else []
  }

  /** A run of `add_placeholder` calls turned the slots `a` into `b`, and
      stopped with an AttributeError unless `ok`. The table only gains keys
      from `ids` (`Extends`); with `find_inputs` the new placeholders are
      appended to the inputs; once `_tmp_result_ids` exists, the new
      placeholders whose key is a result id are appended to the outputs; the
      counter rises by one per new key, except that asking for outputs before
      `build` stores at most one key (and then raises) and counts none. */
  ghost predicate Grown(a: Slots, b: Slots, ids: set<Id>, resultIds: Option<seq<Id>>, findInputs: bool, findOutputs: bool, ok: bool) {
    && Extends(a, b, ids)
    && b.inputs == a.inputs + (if findInputs then Stored(b.entries, Added(a, b), None) else [])
    && b.outputs == a.outputs + (if findOutputs && resultIds.Some? then Stored(b.entries, Added(a, b), resultIds) else [])
    && Counted(a, b, resultIds, findOutputs, ok)
  }

  /** The keys of `a` are a prefix of those of `b`, their entries are kept,
      and every added key is from `ids`. */
  ghost predicate Extends(a: Slots, b: Slots, ids: set<Id>) {
    var ka, kb := a.keys, b.keys;
    && |ka| <= |kb| && kb[..|ka|] == ka
    && (forall k :: k in a.entries ==> k in b.entries && b.entries[k] == a.entries[k])
    && (forall k :: k in Added(a, b) ==> k in ids && k in b.entries)
  }

  ghost predicate Counted(a: Slots, b: Slots, resultIds: Option<seq<Id>>, findOutputs: bool, ok: bool) {
    && (findOutputs && resultIds.None? ==> b.count == a.count && |Added(a, b)| <= (if ok then 0 else 1))
    && (!(findOutputs && resultIds.None?) ==> b.count == a.count + |Added(a, b)|)
  }

  /** A run that adds nothing. */
  lemma GrownRefl(a: Slots, ids: set<Id>, resultIds: Option<seq<Id>>, findInputs: bool, findOutputs: bool, ok: bool)
    ensures Grown(a, a, ids, resultIds, findInputs, findOutputs, ok)
  {
    var ka := a.keys;
    assert ka[..|ka|] == ka && Added(a, a) == [];
  }

  /** One `add_placeholder(tensor)`: a seen id changes nothing; an unseen id
      stores `p`, appends it to the inputs on request, and unless it raises,
      counts it and appends it to the outputs when it is a result id. */
  lemma GrownAdd(a: Slots, b: Slots, tensorId: Id, p: Placeholder, resultIds: Option<seq<Id>>, findInputs: bool, findOutputs: bool, ok: bool)
    requires tensorId in a.entries ==> b == a
    requires tensorId !in a.entries ==>
               && b.keys == a.keys + [tensorId] && b.entries == a.entries[tensorId := p]
               && b.inputs == a.inputs + (if findInputs then [p] else [])
               && (ok <==> !(findOutputs && resultIds.None?))
               && (!ok ==> b.count == a.count && b.outputs == a.outputs)
               && (ok ==> b.count == a.count + 1 &&
                          b.outputs == a.outputs + (if findOutputs && tensorId in resultIds.value then [p] else []))
    ensures Grown(a, b, {tensorId}, resultIds, findInputs, findOutputs, ok)
  {
    if tensorId in a.entries {
      GrownRefl(a, {tensorId}, resultIds, findInputs, findOutputs, ok);
    } else {
      AddedOne(a, b, tensorId, p);
      var m := b.entries;
      assert [tensorId][..0] == [];
      assert Stored(m, [tensorId], None) == [p];
      if findOutputs && resultIds.Some? {
        assert Stored(m, [tensorId], resultIds) == (if tensorId in resultIds.value then [p] else []);
      }
    }
  }

  lemma AddedOne(a: Slots, b: Slots, tensorId: Id, p: Placeholder)
    requires tensorId !in a.entries && b.keys == a.keys + [tensorId] && b.entries == a.entries[tensorId := p]
    ensures Extends(a, b, {tensorId}) && Added(a, b) == [tensorId]
  {
    assert b.keys[..|a.keys|] == a.keys && b.keys[|a.keys|..] == [tensorId];
  }

  /** Keys stored in two runs, one after the other. */
  lemma {:induction false} StoredAppend(m: map<Id, Placeholder>, xs: seq<Id>, ys: seq<Id>, only: Option<seq<Id>>)
    ensures Stored(m, xs + ys, only) == Stored(m, xs, only) + Stored(m, ys, only)
    decreases |ys|
  {
    if ys == [] {
      assert xs + ys == xs;
    } else {
      var front := ys[..|ys| - 1];
      assert (xs + ys)[..|xs + ys| - 1] == xs + front;
      StoredAppend(m, xs, front, only);
    }
  }

  /** What is stored under `ks` only depends on the entries of those keys. */
  lemma {:induction false} StoredAgree(m1: map<Id, Placeholder>, m2: map<Id, Placeholder>, ks: seq<Id>, only: Option<seq<Id>>)
    requires forall k :: k in ks ==> k in m1 && k in m2 && m1[k] == m2[k]
    ensures Stored(m1, ks, only) == Stored(m2, ks, only)
    decreases |ks|
  {
    if ks != [] {
      var front, last := ks[..|ks| - 1], ks[|ks| - 1];
      assert last in ks;
      assert forall k :: k in front ==> k in ks;
      StoredAgree(m1, m2, front, only);
    }
  }

  /** A run that did not raise, followed by another run, is one run. */
  lemma GrownTrans(a: Slots, b: Slots, c: Slots, ids1: set<Id>, ids2: set<Id>, ids: set<Id>,
                   resultIds: Option<seq<Id>>, findInputs: bool, findOutputs: bool, ok: bool)
    requires Grown(a, b, ids1, resultIds, findInputs, findOutputs, true)
    requires Grown(b, c, ids2, resultIds, findInputs, findOutputs, ok)
    requires ids1 <= ids && ids2 <= ids
    ensures Grown(a, c, ids, resultIds, findInputs, findOutputs, ok)
  {
    ExtendsTrans(a, b, c, ids1, ids2, ids);
    var mb, mc := b.entries, c.entries;
    var ab, bc := Added(a, b), Added(b, c);
    if findInputs {
      StoredChain(a.inputs, b.inputs, c.inputs, mb, mc, ab, bc, None);
    }
    if findOutputs && resultIds.Some? {
      StoredChain(a.outputs, b.outputs, c.outputs, mb, mc, ab, bc, resultIds);
    }
  }

  lemma ExtendsTrans(a: Slots, b: Slots, c: Slots, ids1: set<Id>, ids2: set<Id>, ids: set<Id>)
    requires Extends(a, b, ids1) && Extends(b, c, ids2) && ids1 <= ids && ids2 <= ids
    ensures Extends(a, c, ids) && Added(a, c) == Added(a, b) + Added(b, c)
  {
    var ka, kb, kc := a.keys, b.keys, c.keys;
    var ab, bc := Added(a, b), Added(b, c);
    assert kc[..|ka|] == kb[..|ka|];
    assert Added(a, c) == ab + bc by {
      assert kc[|ka|..] == kb[|ka|..] + kc[|kb|..];
    }
    forall k | k in ab + bc ensures k in ids && k in c.entries {
      if k in ab {
        assert k in b.entries;
      }
    }
  }

  lemma StoredChain(oa: seq<Placeholder>, ob: seq<Placeholder>, oc: seq<Placeholder>,
                    mb: map<Id, Placeholder>, mc: map<Id, Placeholder>, ab: seq<Id>, bc: seq<Id>, only: Option<seq<Id>>)
    requires forall k :: k in ab ==> k in mb
    requires forall k :: k in mb ==> k in mc && mc[k] == mb[k]
    requires ob == oa + Stored(mb, ab, only) && oc == ob + Stored(mc, bc, only)
    ensures oc == oa + Stored(mc, ab + bc, only)
  {
    StoredAppend(mc, ab, bc, only);
    StoredAgree(mb, mc, ab, only);
  }

  class Plan {
    const id: Id
    const owner: Worker
    var state: State
    var placeholders: Dict<Id, Placeholder>
    var varCount: nat
    var inputPlaceholders: seq<Placeholder>
    var outputPlaceholders: seq<Placeholder>
    /** `_tmp_result_ids`, which only exists once `build` has set it. */
    var tmpResultIds: Option<seq<Id>>
    var isBuilt: bool
    var pointers: map<Worker, PointerPlan>
    /** Tensor attributes set through `__setattr__`. */
    var attributes: map<string, Value>

    /** The slot bookkeeping `add_placeholder` changes. */
    ghost function Snapshot(): Slots
      reads this
    {
      Slots(placeholders.Keys(), placeholders.Entries(), varCount, inputPlaceholders, outputPlaceholders)
    }

    /** `Plan(...)` as far as slot bookkeeping goes: starts with no slots,
        uses the given state or a new empty one owned by `owner`, and registers
        each of `stateTensors` as the next state slot. */
    constructor (id: Id, owner: Worker, initialState: State?, stateTensors: Option<seq<Value>>, isBuilt: bool,
                 inputPlaceholders: seq<Placeholder>, outputPlaceholders: seq<Placeholder>, provider: IdProvider)
      modifies provider
      modifies if initialState != null then {initialState} else {}
      ensures this.id == id && this.owner == owner && this.isBuilt == isBuilt
      ensures this.inputPlaceholders == inputPlaceholders && this.outputPlaceholders == outputPlaceholders
      ensures tmpResultIds == None && pointers == map[] && attributes == map[]
      ensures initialState != null ==> state == initialState
      ensures initialState == null ==> fresh(state) && state.owner == owner
      ensures stateTensors.None? ==>
                && varCount == 0 && placeholders == Empty()
                && state.statePlaceholders == (if initialState != null then old(initialState.statePlaceholders) else [])
                && provider.next == old(provider.next)
      ensures stateTensors.Some? ==>
                (var ts := stateTensors.value;
                 var before := if initialState != null then old(initialState.statePlaceholders) else [];
                 && varCount == |ts|
                 && |state.statePlaceholders| == |before| + |ts|
                 && state.statePlaceholders[..|before|] == before
                 && provider.next == old(provider.next) + |ts|
                 && (var added := state.statePlaceholders[|before|..];
                     && (forall k :: 0 <= k < |ts| ==>
                           fresh(added[k]) && StateSlot(added[k], ts[k], k + 1, old(provider.next) + k))
                     && placeholders == PutAll(Empty(), TensorIds(ts), added)))
    {
      this.id := id;
      this.owner := owner;
      this.isBuilt := isBuilt;
      this.inputPlaceholders := inputPlaceholders;
      this.outputPlaceholders := outputPlaceholders;
      placeholders := Empty();
      varCount := 0;
      var s: State;
      if initialState != null {
        s := initialState;
      } else {
        s := new State(owner, []);
      }
      state := s;
      tmpResultIds := None;
      pointers := map[];
      attributes := map[];
      new;
      if stateTensors.Some? {
        ghost var before, next := state.statePlaceholders, provider.next;
        assert varCount == 0 && next == old(provider.next);
        ghost var added := RegisterStateTensors(stateTensors.value, provider);
        assert state.statePlaceholders[..|before|] == before;
        assert state.statePlaceholders[|before|..] == added;
        forall k | 0 <= k < |added|
          ensures fresh(added[k]) && StateSlot(added[k], stateTensors.value[k], k + 1, next + k)
        {
        }
      }
    }

    /** The loop of `__init__` over `state_tensors`: each tensor in turn
        becomes the next state slot. */
    method RegisterStateTensors(ts: seq<Value>, provider: IdProvider) returns (ghost added: seq<Placeholder>)
      modifies this`placeholders, this`varCount, state`statePlaceholders, provider
      ensures state.statePlaceholders == old(state.statePlaceholders) + added
      ensures |added| == |ts| && varCount == old(varCount) + |ts| && provider.next == old(provider.next) + |ts|
      ensures forall k :: 0 <= k < |ts| ==>
                fresh(added[k]) && StateSlot(added[k], ts[k], old(varCount) + k + 1, old(provider.next) + k)
      ensures placeholders == PutAll(old(placeholders), TensorIds(ts), added)
    {
      added := [];
      var i := 0;
      while i < |ts|
        invariant 0 <= i <= |ts| && |added| == i
        invariant state.statePlaceholders == old(state.statePlaceholders) + added
        invariant varCount == old(varCount) + i && provider.next == old(provider.next) + i
        invariant forall k :: 0 <= k < i ==>
                    fresh(added[k]) && StateSlot(added[k], ts[k], old(varCount) + k + 1, old(provider.next) + k)
        invariant placeholders == PutAll(old(placeholders), TensorIds(ts[..i]), added)
      {
        var p := RegisterStateTensor(ts[i], provider);
        assert TensorIds(ts[..i + 1]) == TensorIds(ts[..i]) + [ts[i].id];
        PutAllSnoc(old(placeholders), TensorIds(ts[..i]), added, ts[i].id, p);
        added := added + [p];
        i := i + 1;
      }
      assert ts[..i] == ts;
    }

    /** The promotion loop of `State.read`, run on the parent plan over the
        child state's placeholders `ps`: each is promoted in turn until one
        has no child, which is appended but not stored, and `ok` is false. */
    method PromoteAll(ps: seq<Placeholder>, provider: IdProvider)
      returns (ok: bool, ghost copies: seq<Placeholder>, ghost ids: seq<Id>)
      modifies this`placeholders, this`varCount, state`statePlaceholders, provider
      ensures Promoted(ps, provider, ok, copies, ids)
    {
      var n;
      n, copies, ids := PromoteBound(ps, provider);
      ok := n == |ps|;
      if !ok {
        var q := Promote(ps[n], provider);
        copies := copies + [q];
        assert copies[..|ids|] == copies[..n];
      }
    }

    /** What the promotion loop of `State.read` leaves on this plan for the
        child state's placeholders `ps`: the copies are appended to the state,
        one fresh identity each, copy k promoted into slot `var_count + k + 1`;
        `ok` exactly when every placeholder is bound, otherwise the copies stop
        at the first unbound one; the bound ones are stored under their
        children's ids (`ids`) and counted; nothing else of the plan changes. */
    twostate predicate Promoted(ps: seq<Placeholder>, provider: IdProvider, ok: bool, new copies: seq<Placeholder>, ids: seq<Id>)
      reads this, state, provider, ps, copies
    {
      && state == old(state)
      && inputPlaceholders == old(inputPlaceholders) && outputPlaceholders == old(outputPlaceholders)
      && tmpResultIds == old(tmpResultIds) && isBuilt == old(isBuilt)
      && pointers == old(pointers) && attributes == old(attributes)
      && state.statePlaceholders == old(state.statePlaceholders) + copies
      && |copies| <= |ps| && provider.next == old(provider.next) + |copies|
      && (ok ==> |copies| == |ps| && |ids| == |ps|)
      && (!ok ==> 0 < |copies| && |ids| == |copies| - 1 && ps[|ids|].child.None?)
      && varCount == old(varCount) + |ids|
      && placeholders == PutAll(old(placeholders), ids, copies[..|ids|])
      && (ok <==> forall k :: 0 <= k < |ps| ==> ps[k].child.Some?)
      && (forall k :: 0 <= k < |ids| ==> ps[k].child.Some? && ps[k].child.value.id == ids[k])
      && (forall k :: 0 <= k < |copies| ==>
            fresh(copies[k]) && PromotedCopy(copies[k], ps[k], old(varCount) + k + 1, old(provider.next) + k))
    }

    /** The promotion loop of `State.read` while the placeholders are bound:
        stops at the end or at the first placeholder without a child. */
    method PromoteBound(ps: seq<Placeholder>, provider: IdProvider)
      returns (n: nat, ghost copies: seq<Placeholder>, ghost ids: seq<Id>)
      modifies this`placeholders, this`varCount, state`statePlaceholders, provider
      ensures n == |copies| == |ids| <= |ps| && (n < |ps| ==> ps[n].child.None?)
      ensures state.statePlaceholders == old(state.statePlaceholders) + copies
      ensures provider.next == old(provider.next) + |copies|
      ensures forall k :: 0 <= k < |copies| ==>
                fresh(copies[k]) && PromotedCopy(copies[k], ps[k], old(varCount) + k + 1, old(provider.next) + k)
      ensures forall k :: 0 <= k < |ids| ==> ps[k].child.Some? && ps[k].child.value.id == ids[k]
      ensures varCount == old(varCount) + |ids|
      ensures placeholders == PutAll(old(placeholders), ids, copies)
    {
      copies, ids := [], [];
      var i := 0;
      while i < |ps| && ps[i].child.Some?
        invariant 0 <= i <= |ps| && |copies| == i && |ids| == i
        invariant state.statePlaceholders == old(state.statePlaceholders) + copies
        invariant provider.next == old(provider.next) + i
        invariant forall k :: 0 <= k < i ==>
                    fresh(copies[k]) && PromotedCopy(copies[k], ps[k], old(varCount) + k + 1, old(provider.next) + k)
        invariant forall k :: 0 <= k < i ==> ps[k].child.Some? && ps[k].child.value.id == ids[k]
        invariant varCount == old(varCount) + i
        invariant placeholders == PutAll(old(placeholders), ids, copies)
      {
        var q := Promote(ps[i], provider);
        PutAllSnoc(old(placeholders), ids, copies, q.child.value.id, q);
        copies := copies + [q];
        ids := ids + [q.child.value.id];
        i := i + 1;
      }
      n := i;
    }

    /** One turn of the promotion loop in `State.read`, on the parent plan: a
        copy of `src` with its tags replaced by `#inner`, `#state` and
        `#{var_count + 1}` is appended to this plan's state; then, unless its
        child is None (where `read` raises), it is stored under the child's id
        and the counter goes up by one. */
    method Promote(src: Placeholder, provider: IdProvider) returns (q: Placeholder)
      modifies this`placeholders, this`varCount, state`statePlaceholders, provider
      ensures fresh(q) && PromotedCopy(q, src, old(varCount) + 1, old(provider.next))
      ensures provider.next == old(provider.next) + 1
      ensures state.statePlaceholders == old(state.statePlaceholders) + [q]
      ensures src.child.None? ==> placeholders == old(placeholders) && varCount == old(varCount)
      ensures src.child.Some? ==>
                placeholders == old(placeholders).Put(src.child.value.id, q) && varCount == old(varCount) + 1
    {
      q := CopyRetagged(src, varCount + 1, provider);
      state.statePlaceholders := state.statePlaceholders + [q];
      if q.child.Some? {
        placeholders := placeholders.Put(q.child.value.id, q);
        varCount := varCount + 1;
      }
    }

    /** The five steps that make `tensor` the next state slot, shared by the
        constructor and `__setattr__`: a new placeholder tagged `#state` and
        `#{var_count + 1}`, bound to the tensor, appended to the state, mapped
        under the tensor's id, and the counter raised by one. */
    method RegisterStateTensor(tensor: Value, provider: IdProvider) returns (p: Placeholder)
      modifies this`placeholders, this`varCount, state`statePlaceholders, provider
      ensures fresh(p)
      ensures p.tags == ["#state", SlotTag(old(varCount) + 1)] && p.child == Some(Unwrap(tensor))
      ensures p.owner == None && p.description == None
      ensures p.id == old(provider.next) && provider.next == old(provider.next) + 1
      ensures state.statePlaceholders == old(state.statePlaceholders) + [p]
      ensures placeholders == old(placeholders).Put(tensor.id, p)
      ensures varCount == old(varCount) + 1
    {
      p := new Placeholder(None, None, ["#state", SlotTag(varCount + 1)], None, provider);
      varCount := varCount + 1;
      var self := p.Instantiate(tensor);
      state.statePlaceholders := state.statePlaceholders + [p];
      placeholders := placeholders.Put(tensor.id, p);
    }

    /** `__setattr__(name, tensor)`: stores the attribute and registers the
        tensor as the next state slot. */
    method SetTensorAttribute(name: string, tensor: Value, provider: IdProvider) returns (ghost p: Placeholder)
      modifies this`attributes, this`placeholders, this`varCount, state`statePlaceholders, provider
      ensures attributes == old(attributes)[name := tensor]
      ensures fresh(p)
      ensures p.tags == ["#state", SlotTag(old(varCount) + 1)] && p.child == Some(Unwrap(tensor))
      ensures p.id == old(provider.next) && provider.next == old(provider.next) + 1
      ensures state.statePlaceholders == old(state.statePlaceholders) + [p]
      ensures placeholders == old(placeholders).Put(tensor.id, p)
      ensures varCount == old(varCount) + 1
    {
      attributes := attributes[name := tensor];
      p := RegisterStateTensor(tensor, provider);
    }

    /** `add_placeholder(tensor, find_inputs, find_outputs)`. A tensor id seen
        before gives back its placeholder and changes nothing. An unseen id
        gets a new placeholder in slot `var_count + 1`, marked as an input on
        request, and as output number i when it is the i-th result id. Asking
        for outputs before `build` has set the result ids raises an
        AttributeError after the placeholder is stored. */
    method AddPlaceholder(tensor: Value, findInputs: bool, findOutputs: bool, provider: IdProvider)
      returns (r: Result<Placeholder>)
      modifies this`placeholders, this`varCount, this`inputPlaceholders, this`outputPlaceholders, provider
      ensures tensor.id in old(placeholders.Entries()) ==>
                && r == Ok(old(placeholders.Entries()[tensor.id]))
                && placeholders == old(placeholders) && varCount == old(varCount)
                && inputPlaceholders == old(inputPlaceholders) && outputPlaceholders == old(outputPlaceholders)
                && provider.next == old(provider.next)
      ensures tensor.id !in old(placeholders.Entries()) ==>
                && tensor.id in placeholders.Entries()
                && (var p := placeholders.Entries()[tensor.id];
                    && fresh(p) && NewSlotMade(p, r, tensor, findInputs, findOutputs, provider))
    {
      if tensor.id !in placeholders.Entries() {
        var p;
        r, p := NewSlot(tensor, findInputs, findOutputs, provider);
        PutEntries(old(placeholders), tensor.id, p);
        if r.Err? {
          return;
        }
      }
      r := Ok(placeholders.Entries()[tensor.id]);
    }

    /** What `add_placeholder` leaves behind for an unseen tensor id: `p` is
        stored under it, unbound, with the next identity; it is an input on
        request; unless the AttributeError is raised it takes slot
        `var_count + 1`, is given back, and is output number i when the id is
        the i-th result id. */
    twostate predicate NewSlotMade(new p: Placeholder, new r: Result<Placeholder>, tensor: Value, findInputs: bool, findOutputs: bool,
                                   provider: IdProvider)
      reads this, p, provider
    {
      && placeholders == old(placeholders).Put(tensor.id, p)
      && p.owner == None && p.description == None && p.child == None
      && p.id == old(provider.next) && provider.next == old(provider.next) + 1
      && inputPlaceholders == old(inputPlaceholders) + (if findInputs then [p] else [])
      && (r.Err? <==> findOutputs && tmpResultIds.None?)
      && (r.Err? ==>
            && r.error == AttributeError("_tmp_result_ids")
            && varCount == old(varCount) && outputPlaceholders == old(outputPlaceholders)
            && p.tags == AddedTags(old(varCount) + 1, findInputs, None))
      && (r.Ok? ==>
            (var isOutput := findOutputs && tensor.id in tmpResultIds.value;
             && r.value == p
             && varCount == old(varCount) + 1
             && outputPlaceholders == old(outputPlaceholders) + (if isOutput then [p] else [])
             && p.tags == AddedTags(old(varCount) + 1, findInputs,
                                    if isOutput then Some(IndexOf(tmpResultIds.value, tensor.id)) else None)))
    }

    /** The branch of `add_placeholder` for an unseen tensor id. */
    method NewSlot(tensor: Value, findInputs: bool, findOutputs: bool, provider: IdProvider)
      returns (r: Result<Placeholder>, p: Placeholder)
      requires tensor.id !in placeholders.Entries()
      modifies this`placeholders, this`varCount, this`inputPlaceholders, this`outputPlaceholders, provider
      ensures fresh(p) && NewSlotMade(p, r, tensor, findInputs, findOutputs, provider)
    {
      var n := varCount + 1;
      p := new Placeholder(None, None, [SlotTag(n)], None, provider);
      placeholders := placeholders.Put(tensor.id, p);
      if findInputs {
        MarkInput(p, n);
      }
      if findOutputs && tmpResultIds.None? {
        r := Err(AttributeError("_tmp_result_ids"));
      } else {
        if findOutputs {
          MarkOutput(p, n, tensor, findInputs);
        }
        varCount := varCount + 1;
        r := Ok(p);
      }
    }

    /** The input marking of `add_placeholder`. */
    method MarkInput(p: Placeholder, n: nat)
      requires p.tags == AddedTags(n, false, None)
      modifies this`inputPlaceholders, p`tags
      ensures inputPlaceholders == old(inputPlaceholders) + [p]
      ensures p.tags == AddedTags(n, true, None)
    {
      inputPlaceholders := inputPlaceholders + [p];
      InputTagNew(n);
      p.tags := AddTag(p.tags, "#input");
    }

    /** The output marking of `add_placeholder`: a tensor that is the i-th
        result id makes `p` output number i. */
    method MarkOutput(p: Placeholder, n: nat, tensor: Value, input: bool)
      requires tmpResultIds.Some? && p.tags == AddedTags(n, input, None)
      modifies this`outputPlaceholders, p`tags
      ensures var isOutput := tensor.id in tmpResultIds.value;
              && outputPlaceholders == old(outputPlaceholders) + (if isOutput then [p] else [])
              && p.tags == AddedTags(n, input, if isOutput then Some(IndexOf(tmpResultIds.value, tensor.id)) else None)
    {
      if tensor.id in tmpResultIds.value {
        outputPlaceholders := outputPlaceholders + [p];
        var index := IndexOf(tmpResultIds.value, tensor.id);
        OutputTagNew(n, index, input);
        p.tags := AddTag(p.tags, "#output-" + NatToString(index));
      }
    }

    /** `replace_with_placeholders(obj, **kw)`: rebuilds lists, tuples and
        dicts (same keys, same order), keeps scalars, maps every tensor through
        `add_placeholder` and raises TypeError on any other value. */
    method ReplaceWithPlaceholders(obj: PyObj, findInputs: bool, findOutputs: bool, provider: IdProvider)
      returns (r: Result<PyObj>)
      modifies this`placeholders, this`varCount, this`inputPlaceholders, this`outputPlaceholders, provider
      ensures state == old(state) && tmpResultIds == old(tmpResultIds) && isBuilt == old(isBuilt)
      ensures pointers == old(pointers) && attributes == old(attributes)
      ensures forall k :: k in old(placeholders.Entries()) ==>
                k in placeholders.Entries() && placeholders.Entries()[k] == old(placeholders.Entries()[k])
      ensures r.Ok? ==> Replaced(obj, r.value, placeholders.Entries())
      ensures !Supported(obj) ==> r.Err?
      ensures r.Err? ==> (r.error.TypeError? && !Supported(obj)) || (r.error.AttributeError? && findOutputs && tmpResultIds.None?)
      ensures Supported(obj) && (findOutputs ==> tmpResultIds.Some?) ==> r.Ok?
      ensures Grown(old(Snapshot()), Snapshot(), TensorIdsIn(obj), tmpResultIds, findInputs, findOutputs, r.Ok?)
      decreases obj
    {
      match obj {
      case ListObj(xs) =>
        var ys := ReplaceAll(obj, xs, findInputs, findOutputs, provider);
        r := if ys.Ok? then Ok(ListObj(ys.value)) else Err(ys.error);
      case TupleObj(xs) =>
        var ys := ReplaceAll(obj, xs, findInputs, findOutputs, provider);
        r := if ys.Ok? then Ok(TupleObj(ys.value)) else Err(ys.error);
      case DictObj(es) =>
        var fs := ReplaceEntries(obj, es, findInputs, findOutputs, provider);
        r := if fs.Ok? then Ok(DictObj(fs.value)) else Err(fs.error);
      case TensorObj(t) =>
        r := ReplaceTensor(t, findInputs, findOutputs, provider);
      case PlaceholderObj(_) =>
        r := Err(TypeError("PlaceHolder"));
        GrownRefl(Snapshot(), {}, tmpResultIds, findInputs, findOutputs, false);
      case OtherObj(name) =>
        r := Err(TypeError(name));
        GrownRefl(Snapshot(), {}, tmpResultIds, findInputs, findOutputs, false);
      case _ =>
        r := Ok(obj);
        GrownRefl(Snapshot(), TensorIdsIn(obj), tmpResultIds, findInputs, findOutputs, true);
      }
      if r.Ok? {
        ReplacedSupported(obj, r.value, placeholders.Entries());
      }
    }

    /** The tensor branch of `replace_with_placeholders`. */
    method ReplaceTensor(t: Value, findInputs: bool, findOutputs: bool, provider: IdProvider) returns (r: Result<PyObj>)
      modifies this`placeholders, this`varCount, this`inputPlaceholders, this`outputPlaceholders, provider
      ensures forall k :: k in old(placeholders.Entries()) ==>
                k in placeholders.Entries() && placeholders.Entries()[k] == old(placeholders.Entries()[k])
      ensures r.Ok? ==> Replaced(TensorObj(t), r.value, placeholders.Entries())
      ensures r.Err? <==> findOutputs && tmpResultIds.None? && t.id !in old(placeholders.Entries())
      ensures r.Err? ==> r.error.AttributeError?
      ensures Grown(old(Snapshot()), Snapshot(), {t.id}, tmpResultIds, findInputs, findOutputs, r.Ok?)
    {
      var p := AddPlaceholder(t, findInputs, findOutputs, provider);
      r := if p.Ok? then Ok(PlaceholderObj(p.value)) else Err(p.error);
      PutKeys(old(placeholders), t.id, placeholders.Entries()[t.id]);
      GrownAdd(old(Snapshot()), Snapshot(), t.id, placeholders.Entries()[t.id], tmpResultIds, findInputs, findOutputs, r.Ok?);
    }

    /** The list comprehension over the items of a list or tuple `whole`. */
    method ReplaceAll(ghost whole: PyObj, xs: seq<PyObj>, findInputs: bool, findOutputs: bool, provider: IdProvider)
      returns (r: Result<seq<PyObj>>)
      requires (whole.ListObj? || whole.TupleObj?) && whole.items == xs
      modifies this`placeholders, this`varCount, this`inputPlaceholders, this`outputPlaceholders, provider
      ensures state == old(state) && tmpResultIds == old(tmpResultIds) && isBuilt == old(isBuilt)
      ensures pointers == old(pointers) && attributes == old(attributes)
      ensures forall k :: k in old(placeholders.Entries()) ==>
                k in placeholders.Entries() && placeholders.Entries()[k] == old(placeholders.Entries()[k])
      ensures r.Ok? ==> |r.value| == |xs| && forall i :: 0 <= i < |xs| ==> Replaced(xs[i], r.value[i], placeholders.Entries())
      ensures r.Err? ==> (r.error.TypeError? && !Supported(whole)) || (r.error.AttributeError? && findOutputs && tmpResultIds.None?)
      ensures (forall i :: 0 <= i < |xs| ==> Supported(xs[i])) && (findOutputs ==> tmpResultIds.Some?) ==> r.Ok?
      ensures Grown(old(Snapshot()), Snapshot(), TensorIdsIn(whole), tmpResultIds, findInputs, findOutputs, r.Ok?)
      decreases whole, 0
    {
      var ys: seq<PyObj> := [];
      var i := 0;
      GrownRefl(Snapshot(), TensorIdsIn(whole), tmpResultIds, findInputs, findOutputs, true);
      while i < |xs|
        invariant Grown(old(Snapshot()), Snapshot(), TensorIdsIn(whole), tmpResultIds, findInputs, findOutputs, true)
        invariant 0 <= i <= |xs| && |ys| == i
        invariant state == old(state) && tmpResultIds == old(tmpResultIds) && isBuilt == old(isBuilt)
        invariant pointers == old(pointers) && attributes == old(attributes)
        invariant forall k :: k in old(placeholders.Entries()) ==>
                    k in placeholders.Entries() && placeholders.Entries()[k] == old(placeholders.Entries()[k])
        invariant forall j :: 0 <= j < i ==> Replaced(xs[j], ys[j], placeholders.Entries()) && Supported(xs[j])
      {
        ghost var table, mid := placeholders.Entries(), Snapshot();
        var y := ReplaceWithPlaceholders(xs[i], findInputs, findOutputs, provider);
        TensorIdsInItem(whole, i);
        GrownTrans(old(Snapshot()), mid, Snapshot(), TensorIdsIn(whole), TensorIdsIn(xs[i]), TensorIdsIn(whole),
                   tmpResultIds, findInputs, findOutputs, y.Ok?);
        if y.Err? {
          r := Err(y.error);
          return;
        }
        ReplacedItems(xs, ys, y.value, table, placeholders.Entries());
        ys := ys + [y.value];
        i := i + 1;
      }
      r := Ok(ys);
    }

    /** The dict comprehension over the items of `whole`: keys kept, values
        replaced. */
    method ReplaceEntries(ghost whole: PyObj, es: seq<DictEntry>, findInputs: bool, findOutputs: bool, provider: IdProvider)
      returns (r: Result<seq<DictEntry>>)
      requires whole.DictObj? && whole.entries == es
      modifies this`placeholders, this`varCount, this`inputPlaceholders, this`outputPlaceholders, provider
      ensures state == old(state) && tmpResultIds == old(tmpResultIds) && isBuilt == old(isBuilt)
      ensures pointers == old(pointers) && attributes == old(attributes)
      ensures forall k :: k in old(placeholders.Entries()) ==>
                k in placeholders.Entries() && placeholders.Entries()[k] == old(placeholders.Entries()[k])
      ensures r.Ok? ==>
                && |r.value| == |es|
                && forall i :: 0 <= i < |es| ==> r.value[i].key == es[i].key && Replaced(es[i].value, r.value[i].value, placeholders.Entries())
      ensures r.Err? ==> (r.error.TypeError? && !Supported(whole)) || (r.error.AttributeError? && findOutputs && tmpResultIds.None?)
      ensures (forall i :: 0 <= i < |es| ==> Supported(es[i].value)) && (findOutputs ==> tmpResultIds.Some?) ==> r.Ok?
      ensures Grown(old(Snapshot()), Snapshot(), TensorIdsIn(whole), tmpResultIds, findInputs, findOutputs, r.Ok?)
      decreases whole, 0
    {
      var fs: seq<DictEntry> := [];
      var i := 0;
      GrownRefl(Snapshot(), TensorIdsIn(whole), tmpResultIds, findInputs, findOutputs, true);
      while i < |es|
        invariant Grown(old(Snapshot()), Snapshot(), TensorIdsIn(whole), tmpResultIds, findInputs, findOutputs, true)
        invariant 0 <= i <= |es| && |fs| == i
        invariant state == old(state) && tmpResultIds == old(tmpResultIds) && isBuilt == old(isBuilt)
        invariant pointers == old(pointers) && attributes == old(attributes)
        invariant forall k :: k in old(placeholders.Entries()) ==>
                    k in placeholders.Entries() && placeholders.Entries()[k] == old(placeholders.Entries()[k])
        invariant forall j :: 0 <= j < i ==>
                    fs[j].key == es[j].key && Replaced(es[j].value, fs[j].value, placeholders.Entries()) && Supported(es[j].value)
      {
        ghost var table, mid := placeholders.Entries(), Snapshot();
        var v := ReplaceWithPlaceholders(es[i].value, findInputs, findOutputs, provider);
        TensorIdsInEntry(whole, i);
        GrownTrans(old(Snapshot()), mid, Snapshot(), TensorIdsIn(whole), TensorIdsIn(es[i].value), TensorIdsIn(whole),
                   tmpResultIds, findInputs, findOutputs, v.Ok?);
        if v.Err? {
          r := Err(v.error);
          return;
        }
        ReplacedEntries(es, fs, v.value, table, placeholders.Entries());
        fs := fs + [DictEntry(es[i].key, v.value)];
        i := i + 1;
      }
      r := Ok(fs);
    }

    /** `find_placeholders(*search_tags)`: walks the placeholders in insertion
        order and, for every search tag and every tag containing it, reports
        the placeholder once more. */
    method FindPlaceholders(searchTags: seq<string>) returns (results: seq<Placeholder>)
      ensures results == Found(placeholders.Values(), searchTags)
      ensures forall q :: q in results <==> q in placeholders.Values() && Matches(q.tags, searchTags)
    {
      var ps := placeholders.Values();
      results := FindIn(ps, searchTags);
      forall q ensures q in results <==> q in ps && Matches(q.tags, searchTags) {
        FoundMembers(ps, searchTags, q);
      }
    }

    /** `send(*locations, force)`. Unless built or forced it raises
        RuntimeError. Each location already in `pointers` reuses its pointer;
        the others are sent to once, in order, and cached. One location gives
        its pointer back; any other number gives a new multi-location pointer
        listing each location's remote id in argument order. */
    method Send(locations: seq<Worker>, force: bool) returns (r: Result<PointerPlan>)
      modifies this`pointers, owner`sentTo
      ensures !isBuilt && !force ==>
                && r == Err(RuntimeError("A plan needs to be built before being sent to a worker."))
                && pointers == old(pointers) && owner.sentTo == old(owner.sentTo)
      ensures isBuilt || force ==>
                && r.Ok?
                && (forall l :: l in pointers && l !in old(pointers) ==> fresh(pointers[l]))
                && (|locations| == 1 ==>
                      && Sent(old(pointers), pointers, old(owner.sentTo), owner.sentTo, locations, [r.value.idAtLocation], id)
                      && r.value == pointers[locations[0]])
                && (|locations| != 1 ==>
                      && fresh(r.value)
                      && r.value.location == AtAll(locations)
                      && r.value.idAtLocation.ManyIds?
                      && Sent(old(pointers), pointers, old(owner.sentTo), owner.sentTo, locations, r.value.idAtLocation.ids, id))
    {
      if !isBuilt && !force {
        r := Err(RuntimeError("A plan needs to be built before being sent to a worker."));
        return;
      }
      if |locations| == 1 {
        var pointer := SendOnce(locations[0]);
        assert locations[..0] == [] && locations[..1] == locations;
        SentStep(old(pointers), old(pointers), pointers, old(owner.sentTo), old(owner.sentTo), owner.sentTo,
                 locations, 0, [], pointer, id);
        r := Ok(pointer);
      } else {
        var ids := SendEach(locations);
        var pointer := new PointerPlan(AtAll(locations), ManyIds(ids));
        r := Ok(pointer);
      }
    }

    /** The loop of `send` over several locations: the remote id of each
        location's pointer, in argument order, sending to each uncached
        location once. */
    method SendEach(locations: seq<Worker>) returns (ids: seq<PointerId>)
      modifies this`pointers, owner`sentTo
      ensures Sent(old(pointers), pointers, old(owner.sentTo), owner.sentTo, locations, ids, id)
      ensures forall l :: l in pointers && l !in old(pointers) ==> fresh(pointers[l])
    {
      ids := [];
      var i := 0;
      assert locations[..0] == [];
      while i < |locations|
        invariant 0 <= i <= |locations|
        invariant Sent(old(pointers), pointers, old(owner.sentTo), owner.sentTo, locations[..i], ids, id)
        invariant forall l :: l in pointers && l !in old(pointers) ==> fresh(pointers[l])
      {
        ghost var mid, sentMid := pointers, owner.sentTo;
        var pointer := SendOnce(locations[i]);
        SentStep(old(pointers), mid, pointers, old(owner.sentTo), sentMid, owner.sentTo, locations, i, ids, pointer, id);
        ids := ids + [pointer.idAtLocation];
        i := i + 1;
      }
      assert locations[..i] == locations;
    }

    /** The pointer `send` uses for one location: the cached one, or a new
        one from sending the plan there, which is then cached. */
    method SendOnce(location: Worker) returns (pointer: PointerPlan)
      modifies this`pointers, owner`sentTo
      ensures location in old(pointers) ==>
                pointer == old(pointers[location]) && pointers == old(pointers) && owner.sentTo == old(owner.sentTo)
      ensures location !in old(pointers) ==>
                && fresh(pointer) && pointer.location == At(location) && pointer.idAtLocation == OneId(id)
                && pointers == old(pointers)[location := pointer]
                && owner.sentTo == old(owner.sentTo) + [location]
      ensures pointer.idAtLocation == RemoteId(old(pointers), location, id)
    {
      if location in pointers {
        pointer := pointers[location];
      } else {
        pointer := owner.SendPlan(this, location);
        pointers := pointers[location := pointer];
      }
    }
  }

  /** The outer loop of `find_placeholders` over the placeholders `ps`. */
  method FindIn(ps: seq<Placeholder>, searchTags: seq<string>) returns (results: seq<Placeholder>)
    ensures results == Found(ps, searchTags)
  {
    results := [];
    var i := 0;
    while i < |ps|
      invariant 0 <= i <= |ps|
      invariant results == Found(ps[..i], searchTags)
    {
      var hits := SearchHits(ps[i], searchTags);
      assert ps[..i + 1][..i] == ps[..i];
      results := results + hits;
      i := i + 1;
    }
    assert ps[..i] == ps;
  }

  /** What the middle and inner loops of `find_placeholders` append for one
      placeholder. */
  method SearchHits(p: Placeholder, searchTags: seq<string>) returns (hits: seq<Placeholder>)
    ensures hits == SearchMatches(p, p.tags, searchTags)
  {
    hits := [];
    var a := 0;
    while a < |searchTags|
      invariant 0 <= a <= |searchTags|
      invariant hits == SearchMatches(p, p.tags, searchTags[..a])
    {
      var more := TagHits(p, p.tags, searchTags[a]);
      assert searchTags[..a + 1][..a] == searchTags[..a];
      hits := hits + more;
      a := a + 1;
    }
    assert searchTags[..a] == searchTags;
  }

  /** What the inner loop appends: `p` once for each of `tags` containing
      `searchTag`. */
  method TagHits(p: Placeholder, tags: seq<string>, searchTag: string) returns (hits: seq<Placeholder>)
    ensures hits == TagMatches(p, tags, searchTag)
  {
    hits := [];
    var b := 0;
    while b < |tags|
      invariant 0 <= b <= |tags|
      invariant hits == TagMatches(p, tags[..b], searchTag)
    {
      assert tags[..b + 1][..b] == tags[..b];
      if Contains(tags[b], searchTag) {
        hits := hits + [p];
      }
      b := b + 1;
    }
    assert tags[..b] == tags;
  }

  /** The ids of the state tensors, the keys `__init__` stores them under. */
  function TensorIds(ts: seq<Value>): (ids: seq<Id>)
    ensures |ids| == |ts| && forall i :: 0 <= i < |ts| ==> ids[i] == ts[i].id
  {
    seq(|ts|, i requires 0 <= i < |ts| => ts[i].id)
  }
}
