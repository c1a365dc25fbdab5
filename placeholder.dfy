/** PlaceHolder: an identity-bearing slot that a plan's operations refer to and
    that can be bound ("instantiated") to a concrete tensor. Also the global
    table `syft.hook.placeholders` through which deserialised placeholders are
    shared, and the positional binding `zip(placeholders, values)`. */
module Placeholders {
  import opened Values
  import opened Strings

  /** The wire form of a placeholder: the triple (id, tags, description). */
  datatype Wire = Wire(id: Id, tags: seq<string>, description: Option<string>)

  predicate NoDuplicates<T(==)>(s: seq<T>) {
    forall i, j :: 0 <= i < j < |s| ==> s[i] != s[j]
  }

  /** `tags.add(t)`. A tag set is kept as a duplicate-free sequence in
      insertion order, which stands for Python's set iteration order. */
  function AddTag(tags: seq<string>, t: string): (r: seq<string>)
    ensures forall x :: x in r <==> x in tags || x == t
    ensures NoDuplicates(tags) ==> NoDuplicates(r)
  {
    if t in tags then tags else tags + [t]
  }

  /** `tags.update(ts)` / `obj.tag(*ts)`: adds the tags one after the other. */
  function AddTags(tags: seq<string>, ts: seq<string>): (r: seq<string>)
    ensures forall x :: x in r <==> x in tags || x in ts
    ensures NoDuplicates(tags) ==> NoDuplicates(r)
    decreases |ts|
  {
    if ts == [] then tags else AddTags(AddTag(tags, ts[0]), ts[1..])
  }

  /** The three tags of a placeholder promoted into the enclosing plan's state
      as its `n`-th slot. */
  function PromotedTags(n: nat): seq<string> {
    ["#inner", "#state", SlotTag(n)]
  }

  /** Tagging a cleared tag set with `"#inner", "#state", f"#{n}"` gives
      exactly these three distinct tags in this order. */
  lemma PromotedTagsExact(n: nat)
    ensures AddTags([], PromotedTags(n)) == PromotedTags(n)
    ensures NoDuplicates(PromotedTags(n))
  {
    var t := SlotTag(n);
    SlotTagShape(n);
    assert "#inner"[1] == 'i' && "#state"[1] == 's';
    assert t != "#inner" && t != "#state";
    assert "#inner" != "#state";
    var p := PromotedTags(n);
    var p1 := p[1..];
    var p2 := p1[1..];
    var p3 := p2[1..];
    assert p1 == ["#state", t] && p2 == [t] && p3 == [];
    assert AddTag([], "#inner") == ["#inner"];
    assert AddTag(["#inner"], "#state") == ["#inner", "#state"];
    assert AddTag(["#inner", "#state"], t) == p;
    assert AddTags(p, p3) == p;
    assert AddTags(["#inner", "#state"], p2) == p;
    assert AddTags(["#inner"], p1) == p;
  }

  class Placeholder {
    const owner: Option<Id>
    const id: Id
    var tags: seq<string>
    const description: Option<string>
    var child: Option<Value>

    /** `PlaceHolder(owner, id, tags, description)`: keeps a truthy `id`,
        draws a fresh one from the provider otherwise, and starts unbound. */
    constructor (owner: Option<Id>, id: Option<Id>, tags: seq<string>, description: Option<string>,
                 provider: IdProvider)
      modifies provider
      ensures this.owner == owner && this.tags == tags && this.description == description
      ensures child == None
      ensures IsTruthy(id) ==> this.id == id.value && provider.next == old(provider.next)
      ensures !IsTruthy(id) ==> this.id == old(provider.next) && provider.next == old(provider.next) + 1
    {
      var given := id;
      var chosen: Id;
      if IsTruthy(given) {
        chosen := given.value;
      } else {
        chosen := provider.Pop();
      }
      this.owner := owner;
      this.id := chosen;
      this.tags := tags;
      this.description := description;
      child := None;
    }

    /** `instantiate(t)`: binds the tensor, stripping one wrapper layer, and
        returns the placeholder itself; `get()` then reads that back. */
    method Instantiate(t: Value) returns (self: Placeholder)
      modifies this`child
      ensures self == this
      ensures child == Some(Unwrap(t))
      ensures Get() == Some(Unwrap(t))
    {
      child := Some(Unwrap(t));
      self := this;
    }

    /** `get()`: whatever is currently bound. */
    function Get(): Option<Value>
      reads this
    {
      child
    }

    /** `copy()`: a new placeholder with a freshly allocated id, the same tags
        and the same bound child, but no owner and no description. */
    method Copy(provider: IdProvider) returns (q: Placeholder)
      modifies provider
      ensures fresh(q)
      ensures q.tags == tags && q.child == child
      ensures q.owner == None && q.description == None
      ensures q.id == old(provider.next) && provider.next == old(provider.next) + 1
      ensures id < old(provider.next) ==> q.id != id
    {
      q := new Placeholder(None, None, tags, None, provider);
      q.child := child;
    }

    /** `simplify`: only the id, the tags and the description travel; the
        bound child and the owner are dropped. */
    function Simplify(): (w: Wire)
      reads this`tags
      ensures w.id == id && w.tags == tags && w.description == description
    {
      Wire(id, tags, description)
    }
  }

  /** The msgpack list simplification of a placeholder list: each element
      through `Simplify`, in order. */
  function WiresOf(ps: seq<Placeholder>): (ws: seq<Wire>)
    reads ps`tags
    ensures |ws| == |ps|
    ensures forall i :: 0 <= i < |ps| ==> ws[i] == ps[i].Simplify()
    decreases |ps|
  {
    if ps == [] then [] else WiresOf(ps[..|ps| - 1]) + [ps[|ps| - 1].Simplify()]
  }

  /** A list simplifies to `ws` when each element simplifies to its wire. */
  lemma WiresOfElems(ps: seq<Placeholder>, ws: seq<Wire>)
    requires |ps| == |ws| && forall i :: 0 <= i < |ps| ==> ps[i].Simplify() == ws[i]
    ensures WiresOf(ps) == ws
  {
  }

  /** The global table `syft.hook.placeholders`. */
  class Hook {
    var placeholders: map<string, Placeholder>

    constructor ()
      ensures placeholders == map[]
    {
      placeholders := map[];
    }
  }

  /** The table key of a tag set: `"-".join(tags)`. */
  function TableKey(tags: seq<string>): string {
    Join(tags, "-")
  }

  /** `PlaceHolder.detail`: an unseen tag key creates, stores and returns a new
      unbound placeholder owned by `worker`; a seen key returns the stored one
      and leaves the table as it was. */
  method Detail(worker: Option<Id>, hook: Hook, provider: IdProvider, w: Wire) returns (p: Placeholder)
    modifies hook, provider
    ensures TableKey(w.tags) in hook.placeholders && p == hook.placeholders[TableKey(w.tags)]
    ensures TableKey(w.tags) in old(hook.placeholders) ==>
              && p == old(hook.placeholders[TableKey(w.tags)])
              && hook.placeholders == old(hook.placeholders)
              && provider.next == old(provider.next)
    ensures TableKey(w.tags) !in old(hook.placeholders) ==>
              && fresh(p)
              && hook.placeholders == old(hook.placeholders)[TableKey(w.tags) := p]
              && p.tags == w.tags && p.description == w.description
              && p.owner == worker && p.child == None
              && (w.id != 0 ==> p.id == w.id && provider.next == old(provider.next))
              && (w.id == 0 ==> p.id == old(provider.next) && provider.next == old(provider.next) + 1)
  {
    var key := TableKey(w.tags);
    if key !in hook.placeholders {
      var t := new Placeholder(worker, Some(w.id), w.tags, w.description, provider);
      hook.placeholders := hook.placeholders[key := t];
    }
    p := hook.placeholders[key];
  }

  /** `detail(simplify(p))` on a table without p's tag key: a new unbound
      placeholder owned by `worker` with p's tags and description, and p's id
      unless that is falsy. */
  method DetailSimplified(p: Placeholder, worker: Option<Id>, hook: Hook, provider: IdProvider) returns (q: Placeholder)
    requires TableKey(p.tags) !in hook.placeholders
    modifies hook, provider
    ensures fresh(q) && q != p
    ensures q.tags == p.tags && q.description == p.description && q.owner == worker && q.child == None
    ensures p.id != 0 ==> q.id == p.id
  {
    q := Detail(worker, hook, provider, p.Simplify());
  }

  /** The tag keys of a list of wires. */
  function KeysOf(ws: seq<Wire>): set<string> {
    set w | w in ws :: TableKey(w.tags)
  }

  lemma KeysOfSnoc(ws: seq<Wire>, i: nat)
    requires i < |ws|
    ensures KeysOf(ws[..i + 1]) == KeysOf(ws[..i]) + {TableKey(ws[i].tags)}
  {
    assert ws[..i + 1] == ws[..i] + [ws[i]];
  }

  /** `p` is what `Detail` creates for wire `w` when its key is new: the
      wire's tags and description, owned by `worker`, and the wire's id unless that
      is falsy, in which case an id the provider draws from `lo` on. */
  ghost predicate MadeFrom(p: Placeholder, w: Wire, worker: Option<Id>, lo: Id)
    reads p`tags
  {
    && p.tags == w.tags && p.description == w.description
    && p.owner == worker
    && (w.id != 0 ==> p.id == w.id)
    && (w.id == 0 ==> lo <= p.id)
  }

  /** The placeholder part of the codec's list detail: each wire goes through
      `Detail` in order, so wires with the same tag key share one object. */
  method DetailList(worker: Option<Id>, hook: Hook, provider: IdProvider, ws: seq<Wire>)
    returns (ps: seq<Placeholder>)
    modifies hook, provider
    ensures |ps| == |ws|
    ensures forall i :: 0 <= i < |ws| ==> Memo(hook.placeholders, ws[i], ps[i])
    ensures forall k :: k in old(hook.placeholders) ==> k in hook.placeholders && hook.placeholders[k] == old(hook.placeholders[k])
    ensures forall k :: k in hook.placeholders && k !in old(hook.placeholders) ==> k in KeysOf(ws) && fresh(hook.placeholders[k]) && hook.placeholders[k].child == None
    ensures forall i :: 0 <= i < |ws| && New(old(hook.placeholders), ws, i) ==>
              MadeFrom(ps[i], ws[i], worker, old(provider.next)) && ps[i].child == None
    ensures old(provider.next) <= provider.next
  {
    ps := [];
    var i := 0;
    while i < |ws|
      invariant 0 <= i <= |ws| && |ps| == i
      invariant old(provider.next) <= provider.next
      invariant forall a :: 0 <= a < i ==> Memo(hook.placeholders, ws[a], ps[a])
      invariant forall k :: k in old(hook.placeholders) ==> k in hook.placeholders && hook.placeholders[k] == old(hook.placeholders[k])
      invariant forall k :: k in hook.placeholders && k !in old(hook.placeholders) ==> k in KeysOf(ws[..i]) && fresh(hook.placeholders[k]) && hook.placeholders[k].child == None
      invariant forall a :: 0 <= a < i && New(old(hook.placeholders), ws, a) ==>
                  MadeFrom(ps[a], ws[a], worker, old(provider.next)) && ps[a].child == None
    {
      ghost var before := hook.placeholders;
      var p := Detail(worker, hook, provider, ws[i]);
      var key := TableKey(ws[i].tags);
      KeysOfSnoc(ws, i);
      MemoSnoc(before, hook.placeholders, ws, ps, p);
      if New(old(hook.placeholders), ws, i) {
        assert key !in before;
      }
      ps := ps + [p];
      i := i + 1;
    }
    assert ws[..i] == ws;
  }

  /** A table that only grew still holds what it held for the earlier wires,
      and now also `p` for the next one. */
  lemma MemoSnoc(before: map<string, Placeholder>, after: map<string, Placeholder>, ws: seq<Wire>,
                 ps: seq<Placeholder>, p: Placeholder)
    requires |ps| < |ws|
    requires forall a :: 0 <= a < |ps| ==> Memo(before, ws[a], ps[a])
    requires forall k :: k in before ==> k in after && after[k] == before[k]
    requires Memo(after, ws[|ps|], p)
    ensures forall a :: 0 <= a <= |ps| ==> Memo(after, ws[a], (ps + [p])[a])
  {
    forall a | 0 <= a <= |ps| ensures Memo(after, ws[a], (ps + [p])[a]) {
      if a < |ps| {
        assert (ps + [p])[a] == ps[a] && Memo(before, ws[a], ps[a]);
      }
    }
  }

  /** `p` is the object the table holds for the tag key of `w`. */
  ghost predicate Memo(table: map<string, Placeholder>, w: Wire, p: Placeholder) {
    TableKey(w.tags) in table && table[TableKey(w.tags)] == p
  }

  /** The key of wire i is neither in the initial table nor the key of an
      earlier wire: `Detail` creates a placeholder for it. */
  predicate New(table: map<string, Placeholder>, ws: seq<Wire>, i: nat)
    requires i < |ws|
  {
    TableKey(ws[i].tags) !in table && TableKey(ws[i].tags) !in KeysOf(ws[..i])
  }

  /** Wires that share a tag key are the same wire: the placeholders they
      come from are told apart by their tags. */
  predicate SameKeySameWire(ws: seq<Wire>) {
    forall i, j :: 0 <= i < |ws| && 0 <= j < |ws| && TableKey(ws[i].tags) == TableKey(ws[j].tags) ==> ws[i] == ws[j]
  }

  /** A wire whose key the table lacks has a first wire with that key, and
      `Detail` creates the placeholder for that one. */
  lemma {:induction false} FirstWithKey(table: map<string, Placeholder>, ws: seq<Wire>, i: nat) returns (j: nat)
    requires i < |ws| && TableKey(ws[i].tags) !in table
    ensures j <= i && New(table, ws, j) && TableKey(ws[j].tags) == TableKey(ws[i].tags)
    decreases i
  {
    if New(table, ws, i) {
      j := i;
    } else {
      var w :| w in ws[..i] && TableKey(w.tags) == TableKey(ws[i].tags);
      var k :| 0 <= k < i && ws[..i][k] == w;
      j := FirstWithKey(table, ws, k);
    }
  }

  /** What a list detail gives for wires whose keys the table lacked at the
      start (`table0`), when every id is truthy and wires with one key are
      one wire: every object simplifies back to its own wire and is owned by
      the worker; with distinct keys the objects are distinct as well. */
  lemma DetailedWires(table0: map<string, Placeholder>, table: map<string, Placeholder>, ws: seq<Wire>,
                      ps: seq<Placeholder>, worker: Option<Id>, lo: Id)
    requires |ps| == |ws|
    requires forall i :: 0 <= i < |ws| ==> Memo(table, ws[i], ps[i])
    requires forall i :: 0 <= i < |ws| && New(table0, ws, i) ==> MadeFrom(ps[i], ws[i], worker, lo)
    requires forall i :: 0 <= i < |ws| ==> TableKey(ws[i].tags) !in table0 && ws[i].id != 0
    requires SameKeySameWire(ws)
    ensures forall i :: 0 <= i < |ps| ==> ps[i].Simplify() == ws[i] && ps[i].owner == worker
    ensures (forall i, j :: 0 <= i < j < |ws| ==> TableKey(ws[i].tags) != TableKey(ws[j].tags)) ==> NoDuplicates(ps)
  {
    forall i | 0 <= i < |ws| ensures ps[i].Simplify() == ws[i] && ps[i].owner == worker {
      var j := FirstWithKey(table0, ws, i);
      assert Memo(table, ws[j], ps[j]);
    }
  }

  function Min(a: nat, b: nat): nat {
    if a <= b then a else b
  }

  /** The value that the pairs (ps[j], vs[j]) with j < m bind to `p` when
      applied in order: that of the LAST j with ps[j] == p, if any. */
  function LastPaired<T(==), V>(ps: seq<T>, vs: seq<V>, p: T, m: nat): Option<V>
    requires m <= |ps| && m <= |vs|
    decreases m
  {
    if m == 0 then None
    else if ps[m - 1] == p then Some(vs[m - 1])
    else LastPaired(ps, vs, p, m - 1)
  }

  /** Without repeated placeholders the pairing is plainly positional. */
  lemma {:induction false} LastPairedDistinct<T, V>(ps: seq<T>, vs: seq<V>, m: nat, i: nat)
    requires m <= |ps| && m <= |vs| && i < m
    requires forall a, b :: 0 <= a < b < m ==> ps[a] != ps[b]
    ensures LastPaired(ps, vs, ps[i], m) == Some(vs[i])
    decreases m
  {
    if i < m - 1 {
      assert ps[m - 1] != ps[i];
      LastPairedDistinct(ps, vs, m - 1, i);
    }
  }

  /** A placeholder outside the first m positions is paired with nothing. */
  lemma {:induction false} LastPairedAbsent<T, V>(ps: seq<T>, vs: seq<V>, p: T, m: nat)
    requires m <= |ps| && m <= |vs|
    requires forall a :: 0 <= a < m ==> ps[a] != p
    ensures LastPaired(ps, vs, p, m) == None
    decreases m
  {
    if m > 0 {
      LastPairedAbsent(ps, vs, p, m - 1);
    }
  }

  /** The child a placeholder has after `zip(ps, vs)` has instantiated its
      pairs in order, given the child it had before. */
  function ZipChild(ps: seq<Placeholder>, vs: seq<Value>, p: Placeholder, before: Option<Value>): Option<Value> {
    var b := LastPaired(ps, vs, p, Min(|ps|, |vs|));
    if b.Some? then Some(Unwrap(b.value)) else before
  }

  /** `for p, v in zip(ps, vs): p.instantiate(v)`: pairs by position, stops
      at the shorter list; a placeholder listed twice keeps its last value. */
  method InstantiateZip(ps: seq<Placeholder>, vs: seq<Value>)
    modifies ps`child
    ensures forall p :: p in ps ==> p.child == ZipChild(ps, vs, p, old(p.child))
    ensures NoDuplicates(ps) ==> forall i :: 0 <= i < Min(|ps|, |vs|) ==> ps[i].child == Some(Unwrap(vs[i]))
  {
    var m := Min(|ps|, |vs|);
    var i := 0;
    while i < m
      invariant 0 <= i <= m
      invariant forall p :: p in ps ==>
                  p.child == (var b := LastPaired(ps, vs, p, i); if b.Some? then Some(Unwrap(b.value)) else old(p.child))
    {
      var self := ps[i].Instantiate(vs[i]);
      i := i + 1;
    }
    if NoDuplicates(ps) {
      forall i | 0 <= i < m ensures ps[i].child == Some(Unwrap(vs[i])) {
        LastPairedDistinct(ps, vs, m, i);
      }
    }
  }
}
