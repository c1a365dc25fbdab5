/** Pure descriptions of what the State operations compute from a list of
    placeholders: the values `read` hands back, the dictionary
    `clone_state_dict` builds, the child `set_` leaves on each placeholder and
    the registry `detail` fills. */
module StateSpec {
  import opened Values
  import opened Placeholders

  /** The children of the placeholders not tagged `#inner`, in list order:
      the list `read` returns. */
  function LocalChildren(ps: seq<Placeholder>): seq<Option<Value>>
    reads ps
    decreases |ps|
  {
    if ps == [] then []
    else
      var last := ps[|ps| - 1];
      LocalChildren(ps[..|ps| - 1]) + (if "#inner" in last.tags then [] else [last.child])
  }

  /** When no placeholder is tagged `#inner`, `read` returns every child, one per
      placeholder, in order, exactly as `tensors` does. */
  lemma {:induction false} LocalChildrenAllLocal(ps: seq<Placeholder>)
    requires forall i :: 0 <= i < |ps| ==> "#inner" !in ps[i].tags
    ensures |LocalChildren(ps)| == |ps|
    ensures forall i :: 0 <= i < |ps| ==> LocalChildren(ps)[i] == ps[i].child
    decreases |ps|
  {
    if ps != [] {
      LocalChildrenAllLocal(ps[..|ps| - 1]);
    }
  }

  /** Placeholders tagged `#inner` appended to a list do not show in what
      `read` returns: promoted copies are invisible to the parent's own read. */
  lemma {:induction false} LocalChildrenSkipsInner(ps: seq<Placeholder>, qs: seq<Placeholder>)
    requires forall j :: 0 <= j < |qs| ==> "#inner" in qs[j].tags
    ensures LocalChildren(ps + qs) == LocalChildren(ps)
    decreases |qs|
  {
    if qs != [] {
      var front := qs[..|qs| - 1];
      assert (ps + qs)[..|ps + qs| - 1] == ps + front;
      assert (ps + qs)[|ps + qs| - 1] == qs[|qs| - 1];
      assert LocalChildren(ps + qs) == LocalChildren(ps + front);
      LocalChildrenSkipsInner(ps, front);
    } else {
      assert ps + qs == ps;
    }
  }

  /** A value is returned by `read` exactly when some placeholder without the
      `#inner` tag holds it. */
  lemma {:induction false} LocalChildrenMembers(ps: seq<Placeholder>, v: Option<Value>)
    ensures v in LocalChildren(ps) <==> exists i :: 0 <= i < |ps| && "#inner" !in ps[i].tags && ps[i].child == v
    decreases |ps|
  {
    if ps != [] {
      var front := ps[..|ps| - 1];
      LocalChildrenMembers(front, v);
      if exists i :: 0 <= i < |front| && "#inner" !in front[i].tags && front[i].child == v {
        var i :| 0 <= i < |front| && "#inner" !in front[i].tags && front[i].child == v;
        assert ps[i] == front[i];
      }
      if exists i :: 0 <= i < |ps| && "#inner" !in ps[i].tags && ps[i].child == v {
        var i :| 0 <= i < |ps| && "#inner" !in ps[i].tags && ps[i].child == v;
        if i < |front| {
          assert front[i] == ps[i];
        }
      }
    }
  }

  /** The identities of a list of placeholders. */
  ghost function IdsOf(ps: seq<Placeholder>): set<Id>
    reads ps
  {
    set i | 0 <= i < |ps| :: ps[i].id
  }

  /** No later placeholder in the list has the same id as the one at `i`. */
  ghost predicate LastWithId(ps: seq<Placeholder>, i: nat)
    requires i < |ps|
    reads ps
  {
    forall j :: i < j < |ps| ==> ps[j].id != ps[i].id
  }

  /** `{p.id: p.child.clone() for p in ps}` with `clone` left abstract: fails
      with an AttributeError as soon as a child is None. */
  function CloneStateDict(ps: seq<Placeholder>, clone: Value -> Value): (r: Result<map<Id, Value>>)
    reads ps
    ensures r.Ok? <==> forall i :: 0 <= i < |ps| ==> ps[i].child.Some?
    ensures r.Err? ==> r.error == AttributeError("clone")
    decreases |ps|
  {
    if ps == [] then Ok(map[])
    else
      var last := ps[|ps| - 1];
      var rest := CloneStateDict(ps[..|ps| - 1], clone);
      if rest.Err? then rest
      else if last.child.None? then Err(AttributeError("clone"))
      else Ok(rest.value[last.id := clone(last.child.value)])
  }

  /** The keys of `clone_state_dict()` are exactly the placeholder ids. */
  lemma {:induction false} CloneStateDictKeys(ps: seq<Placeholder>, clone: Value -> Value)
    requires CloneStateDict(ps, clone).Ok?
    ensures CloneStateDict(ps, clone).value.Keys == IdsOf(ps)
    decreases |ps|
  {
    if ps != [] {
      var front := ps[..|ps| - 1];
      CloneStateDictKeys(front, clone);
      assert forall i :: 0 <= i < |front| ==> front[i] == ps[i];
      assert IdsOf(ps) == IdsOf(front) + {ps[|ps| - 1].id};
    }
  }

  /** Each id maps to the clone of the child of the last placeholder with
      that id. */
  lemma {:induction false} CloneStateDictValues(ps: seq<Placeholder>, clone: Value -> Value, i: nat)
    requires i < |ps| && LastWithId(ps, i)
    requires CloneStateDict(ps, clone).Ok?
    ensures ps[i].child.Some?
    ensures ps[i].id in CloneStateDict(ps, clone).value
    ensures CloneStateDict(ps, clone).value[ps[i].id] == clone(ps[i].child.value)
    decreases |ps|
  {
    if i < |ps| - 1 {
      var front := ps[..|ps| - 1];
      assert front[i] == ps[i];
      assert LastWithId(front, i);
      CloneStateDictValues(front, clone, i);
    }
  }

  /** The child `set_(d)` leaves on a placeholder with identity `id` that had
      child `before`: the unwrapped `d[id]` when `id` is a key, `before`
      otherwise. */
  function SetChild(id: Id, before: Option<Value>, d: map<Id, Value>): Option<Value> {
    if id in d then Some(Unwrap(d[id])) else before
  }

  /** `state.set_(state.clone_state_dict())`, as `Plan.copy` does: with
      pairwise distinct ids every placeholder ends up bound to the (unwrapped)
      clone of its own former child. */
  lemma SetCloneStateDict(ps: seq<Placeholder>, clone: Value -> Value, i: nat)
    requires i < |ps|
    requires forall a, b :: 0 <= a < b < |ps| ==> ps[a].id != ps[b].id
    requires CloneStateDict(ps, clone).Ok?
    ensures ps[i].child.Some?
    ensures SetChild(ps[i].id, ps[i].child, CloneStateDict(ps, clone).value) == Some(Unwrap(clone(ps[i].child.value)))
  {
    assert LastWithId(ps, i);
    CloneStateDictValues(ps, clone, i);
  }

  /** The owner's registry after `register_obj(v, obj_id=v.id)` for each value
      in turn. */
  function RegisterAll(objects: map<Id, Value>, vs: seq<Value>): (r: map<Id, Value>)
    ensures objects.Keys <= r.Keys
    ensures forall i :: 0 <= i < |vs| ==> vs[i].id in r
    decreases |vs|
  {
    if vs == [] then objects
    else RegisterAll(objects, vs[..|vs| - 1])[vs[|vs| - 1].id := vs[|vs| - 1]]
  }

  /** Registration adds exactly the values' ids. */
  lemma {:induction false} RegisterAllKeys(objects: map<Id, Value>, vs: seq<Value>)
    ensures RegisterAll(objects, vs).Keys == objects.Keys + (set i | 0 <= i < |vs| :: vs[i].id)
    decreases |vs|
  {
    if vs != [] {
      var front := vs[..|vs| - 1];
      RegisterAllKeys(objects, front);
      assert forall i :: 0 <= i < |front| ==> front[i] == vs[i];
      assert (set i | 0 <= i < |vs| :: vs[i].id) == (set i | 0 <= i < |front| :: front[i].id) + {vs[|vs| - 1].id};
    }
  }

  /** Each id holds the last value registered under it; other entries stay. */
  lemma {:induction false} RegisterAllValues(objects: map<Id, Value>, vs: seq<Value>, k: Id)
    ensures (forall i :: 0 <= i < |vs| ==> vs[i].id != k) && k in objects ==> RegisterAll(objects, vs)[k] == objects[k]
    ensures forall i :: 0 <= i < |vs| && vs[i].id == k && (forall j :: i < j < |vs| ==> vs[j].id != k) ==>
              RegisterAll(objects, vs)[k] == vs[i]
    decreases |vs|
  {
    if vs != [] {
      var front := vs[..|vs| - 1];
      RegisterAllValues(objects, front, k);
      assert forall i :: 0 <= i < |front| ==> front[i] == vs[i];
    }
  }

  /** Position of the first None in `es`, or |es| when there is none: where
      `detail`'s registration loop raises. */
  function FirstNone(es: seq<Option<Value>>): (n: nat)
    ensures n <= |es| && (n < |es| ==> es[n].None?)
    ensures forall i :: 0 <= i < n ==> es[i].Some?
    decreases |es|
  {
    if es == [] then 0 else if es[0].None? then 0 else 1 + FirstNone(es[1..])
  }

  /** The values of a list of present options. */
  function Present(es: seq<Option<Value>>): (vs: seq<Value>)
    requires forall i :: 0 <= i < |es| ==> es[i].Some?
    ensures |vs| == |es| && forall i :: 0 <= i < |es| ==> vs[i] == es[i].value
  {
    seq(|es|, i requires 0 <= i < |es| => es[i].value)
  }
}
