/** The parts of the plan module that do not touch a plan's fields: the shape
    mapping behind `_create_placeholders`, the key function built by
    `tag_sort`, the Python values that `replace_with_placeholders` walks, and
    the order in which `find_placeholders` reports its matches. */
module PlanHelpers {
  import opened Values
  import opened Strings
  import opened Placeholders

  /** `tuple(map(lambda y: 1 if y == -1 else y, shape))`: the wildcard
      dimension -1 becomes 1 and every other dimension stays. */
  function MapShape(shape: seq<int>): (r: seq<int>)
    ensures |r| == |shape|
    ensures forall j :: 0 <= j < |shape| && shape[j] == -1 ==> r[j] == 1
    ensures forall j :: 0 <= j < |shape| && shape[j] != -1 ==> r[j] == shape[j]
    ensures !Invalid(shape) ==> forall j :: 0 <= j < |r| ==> r[j] >= 0
  {
    seq(|shape|, j requires 0 <= j < |shape| => if shape[j] == -1 then 1 else shape[j])
  }

  /** A shape `_create_placeholders` rejects: some dimension is below -1. */
  predicate Invalid(shape: seq<int>) {
    exists j :: 0 <= j < |shape| && shape[j] < -1
  }

  /** `_create_placeholders(args_shape)`: the shapes of the zero tensors it
      creates, or the ValueError raised for the first invalid shape. */
  method CreatePlaceholders(argsShape: seq<seq<int>>) returns (r: Result<seq<seq<int>>>)
    ensures r.Err? <==> exists i :: 0 <= i < |argsShape| && Invalid(argsShape[i])
    ensures r.Err? ==> exists i :: (0 <= i < |argsShape| && Invalid(argsShape[i]) && r.error == ValueError(argsShape[i])
                                    && forall k :: 0 <= k < i ==> !Invalid(argsShape[k]))
    ensures r.Ok? ==> |r.value| == |argsShape|
    ensures r.Ok? ==> forall i :: 0 <= i < |argsShape| ==> r.value[i] == MapShape(argsShape[i])
  {
    var mapped: seq<seq<int>> := [];
    var i := 0;
    while i < |argsShape|
      invariant 0 <= i <= |argsShape| && |mapped| == i
      invariant forall k :: 0 <= k < i ==> !Invalid(argsShape[k]) && mapped[k] == MapShape(argsShape[k])
    {
      if Invalid(argsShape[i]) {
        r := Err(ValueError(argsShape[i]));
        return;
      }
      mapped := mapped + [MapShape(argsShape[i])];
      i := i + 1;
    }
    r := Ok(mapped);
  }

  /** `ids.index(x)`: the position of the first occurrence. */
  function IndexOf(ids: seq<Id>, x: Id): (i: nat)
    requires x in ids
    ensures i < |ids| && ids[i] == x
    ensures forall j :: 0 <= j < i ==> ids[j] != x
    decreases |ids|
  {
    if ids[0] == x then 0 else 1 + IndexOf(ids[1..], x)
  }

  /** What the key function of `tag_sort(keyword)` returns: a tag, or a
      TypeError object (returned, not raised). */
  datatype SortKey = TagKey(tag: string) | TypeErrorKey(keyword: string, tags: seq<string>)

  /** `tag_sort(keyword)(placeholder)` on the placeholder's tags: the first tag
      containing `keyword`, or the TypeError value when none does. */
  method TagSortKey(keyword: string, tags: seq<string>) returns (k: SortKey)
    ensures k.TypeErrorKey? <==> forall i :: 0 <= i < |tags| ==> !Contains(tags[i], keyword)
    ensures k.TypeErrorKey? ==> k == TypeErrorKey(keyword, tags)
    ensures k.TagKey? ==> exists i :: (0 <= i < |tags| && tags[i] == k.tag && Contains(tags[i], keyword)
                                       && forall j :: 0 <= j < i ==> !Contains(tags[j], keyword))
  {
    var i := 0;
    while i < |tags|
      invariant 0 <= i <= |tags|
      invariant forall j :: 0 <= j < i ==> !Contains(tags[j], keyword)
    {
      if Contains(tags[i], keyword) {
        k := TagKey(tags[i]);
        return;
      }
      i := i + 1;
    }
    k := TypeErrorKey(keyword, tags);
  }

  /** The Python values a traced command or response is made of. */
  datatype PyObj =
    | ListObj(items: seq<PyObj>)
    | TupleObj(items: seq<PyObj>)
    | DictObj(entries: seq<DictEntry>)
    | TensorObj(tensor: Value)
    | PlaceholderObj(placeholder: Placeholder)
    | IntObj(i: int)
    | FloatObj(f: real)
    | StrObj(s: string)
    | BoolObj(b: bool)
    | NoneObj
    | OtherObj(typeName: string)

  /** A dictionary item, in the dictionary's insertion order. */
  datatype DictEntry = DictEntry(key: PyObj, value: PyObj)

  /** The ids of the tensors inside a (nested) argument, as far as
      `replace_with_placeholders` looks: list and tuple items and dict values. */
  function TensorIdsIn(a: PyObj): set<Id>
    decreases a
  {
    match a
    case ListObj(xs) => set i, k | 0 <= i < |xs| && k in TensorIdsIn(xs[i]) :: k
    case TupleObj(xs) => set i, k | 0 <= i < |xs| && k in TensorIdsIn(xs[i]) :: k
    case DictObj(es) => set i, k | 0 <= i < |es| && k in TensorIdsIn(es[i].value) :: k
    case TensorObj(t) => {t.id}
    case _ => {}
  }

  /** The tensors inside an item of a list or tuple are inside the whole. */
  lemma TensorIdsInItem(whole: PyObj, i: nat)
    requires (whole.ListObj? || whole.TupleObj?) && i < |whole.items|
    ensures TensorIdsIn(whole.items[i]) <= TensorIdsIn(whole)
  {
    forall k | k in TensorIdsIn(whole.items[i]) ensures k in TensorIdsIn(whole) {
      assert 0 <= i < |whole.items| && k in TensorIdsIn(whole.items[i]);
    }
  }

  /** The tensors inside a value of a dict are inside the whole. */
  lemma TensorIdsInEntry(whole: PyObj, i: nat)
    requires whole.DictObj? && i < |whole.entries|
    ensures TensorIdsIn(whole.entries[i].value) <= TensorIdsIn(whole)
  {
    forall k | k in TensorIdsIn(whole.entries[i].value) ensures k in TensorIdsIn(whole) {
      assert 0 <= i < |whole.entries| && k in TensorIdsIn(whole.entries[i].value);
    }
  }

  /** Scalars that `replace_with_placeholders` returns unchanged. */
  predicate IsScalar(a: PyObj) {
    a.IntObj? || a.FloatObj? || a.StrObj? || a.BoolObj? || a.NoneObj?
  }

  /** The values `replace_with_placeholders` accepts: containers of tensors
      and scalars. Anything else (a placeholder among them) raises TypeError. */
  predicate Supported(a: PyObj)
    decreases a
  {
    match a
    case ListObj(xs) => forall i :: 0 <= i < |xs| ==> Supported(xs[i])
    case TupleObj(xs) => forall i :: 0 <= i < |xs| ==> Supported(xs[i])
    case DictObj(es) => forall i :: 0 <= i < |es| ==> Supported(es[i].value)
    case TensorObj(_) => true
    case PlaceholderObj(_) => false
    case OtherObj(_) => false
    case _ => IsScalar(a)
  }

  /** `b` is `a` with the same list, tuple and dict structure and the same dict
      keys, scalars kept and every tensor replaced by the placeholder `table`
      holds for its id. */
  predicate Replaced(a: PyObj, b: PyObj, table: map<Id, Placeholder>)
    decreases a
  {
    match a
    case ListObj(xs) =>
      b.ListObj? && |b.items| == |xs| && forall i :: 0 <= i < |xs| ==> Replaced(xs[i], b.items[i], table)
    case TupleObj(xs) =>
      b.TupleObj? && |b.items| == |xs| && forall i :: 0 <= i < |xs| ==> Replaced(xs[i], b.items[i], table)
    case DictObj(es) =>
      && b.DictObj? && |b.entries| == |es|
      && forall i :: 0 <= i < |es| ==> b.entries[i].key == es[i].key && Replaced(es[i].value, b.entries[i].value, table)
    case TensorObj(t) => t.id in table && b == PlaceholderObj(table[t.id])
    case PlaceholderObj(_) => false
    case OtherObj(_) => false
    case _ => IsScalar(a) && b == a
  }

  /** Only supported values have a replacement. */
  lemma {:induction false} ReplacedSupported(a: PyObj, b: PyObj, table: map<Id, Placeholder>)
    requires Replaced(a, b, table)
    ensures Supported(a)
    decreases a
  {
    match a
    case ListObj(xs) =>
      forall i | 0 <= i < |xs| ensures Supported(xs[i]) {
        ReplacedSupported(xs[i], b.items[i], table);
      }
    case TupleObj(xs) =>
      forall i | 0 <= i < |xs| ensures Supported(xs[i]) {
        ReplacedSupported(xs[i], b.items[i], table);
      }
    case DictObj(es) =>
      forall i | 0 <= i < |es| ensures Supported(es[i].value) {
        ReplacedSupported(es[i].value, b.entries[i].value, table);
      }
    case _ =>
  }

  /** One more item of a list comprehension: the earlier replacements stay
      valid in the grown table and the new one joins them. */
  lemma ReplacedItems(xs: seq<PyObj>, ys: seq<PyObj>, y: PyObj, t1: map<Id, Placeholder>, t2: map<Id, Placeholder>)
    requires |ys| < |xs|
    requires forall j :: 0 <= j < |ys| ==> Replaced(xs[j], ys[j], t1) && Supported(xs[j])
    requires forall k :: k in t1 ==> k in t2 && t2[k] == t1[k]
    requires Replaced(xs[|ys|], y, t2)
    ensures forall j :: 0 <= j < |ys| + 1 ==> Replaced(xs[j], (ys + [y])[j], t2) && Supported(xs[j])
  {
    forall j | 0 <= j < |ys| + 1 ensures Replaced(xs[j], (ys + [y])[j], t2) && Supported(xs[j]) {
      if j < |ys| {
        ReplacedGrow(xs[j], ys[j], t1, t2);
      } else {
        ReplacedSupported(xs[j], y, t2);
      }
    }
  }

  /** One more entry of a dict comprehension, as `ReplacedItems`. */
  lemma ReplacedEntries(es: seq<DictEntry>, fs: seq<DictEntry>, v: PyObj, t1: map<Id, Placeholder>, t2: map<Id, Placeholder>)
    requires |fs| < |es|
    requires forall j :: 0 <= j < |fs| ==> fs[j].key == es[j].key && Replaced(es[j].value, fs[j].value, t1) && Supported(es[j].value)
    requires forall k :: k in t1 ==> k in t2 && t2[k] == t1[k]
    requires Replaced(es[|fs|].value, v, t2)
    ensures var gs := fs + [DictEntry(es[|fs|].key, v)];
            forall j :: 0 <= j < |gs| ==> gs[j].key == es[j].key && Replaced(es[j].value, gs[j].value, t2) && Supported(es[j].value)
  {
    var gs := fs + [DictEntry(es[|fs|].key, v)];
    forall j | 0 <= j < |gs| ensures gs[j].key == es[j].key && Replaced(es[j].value, gs[j].value, t2) && Supported(es[j].value) {
      if j < |fs| {
        ReplacedGrow(es[j].value, fs[j].value, t1, t2);
      } else {
        ReplacedSupported(es[j].value, v, t2);
      }
    }
  }

  /** A replacement stays valid when the table only grows. */
  lemma {:induction false} ReplacedGrow(a: PyObj, b: PyObj, t1: map<Id, Placeholder>, t2: map<Id, Placeholder>)
    requires Replaced(a, b, t1)
    requires forall k :: k in t1 ==> k in t2 && t2[k] == t1[k]
    ensures Replaced(a, b, t2)
    decreases a
  {
    match a
    case ListObj(xs) =>
      forall i | 0 <= i < |xs| ensures Replaced(xs[i], b.items[i], t2) {
        ReplacedGrow(xs[i], b.items[i], t1, t2);
      }
    case TupleObj(xs) =>
      forall i | 0 <= i < |xs| ensures Replaced(xs[i], b.items[i], t2) {
        ReplacedGrow(xs[i], b.items[i], t1, t2);
      }
    case DictObj(es) =>
      forall i | 0 <= i < |es| ensures Replaced(es[i].value, b.entries[i].value, t2) {
        ReplacedGrow(es[i].value, b.entries[i].value, t1, t2);
      }
    case _ =>
  }

  /** Some tag of `tags` contains some search tag. */
  predicate Matches(tags: seq<string>, searchTags: seq<string>) {
    exists a, i :: 0 <= a < |searchTags| && 0 <= i < |tags| && Contains(tags[i], searchTags[a])
  }

  /** What the innermost loop of `find_placeholders` appends: `p` once per tag
      containing `st`. */
  function TagMatches(p: Placeholder, tags: seq<string>, st: string): seq<Placeholder>
    decreases |tags|
  {
    if tags == [] then []
    else TagMatches(p, tags[..|tags| - 1], st) + (if Contains(tags[|tags| - 1], st) then [p] else [])
  }

  /** What the middle loop appends for one placeholder: its matches for each
      search tag in turn. */
  function SearchMatches(p: Placeholder, tags: seq<string>, searchTags: seq<string>): seq<Placeholder>
    decreases |searchTags|
  {
    if searchTags == [] then []
    else SearchMatches(p, tags, searchTags[..|searchTags| - 1]) + TagMatches(p, tags, searchTags[|searchTags| - 1])
  }

  /** The whole result of `find_placeholders` over `ps` in order. */
  function Found(ps: seq<Placeholder>, searchTags: seq<string>): seq<Placeholder>
    reads ps
    decreases |ps|
  {
    if ps == [] then []
    else Found(ps[..|ps| - 1], searchTags) + SearchMatches(ps[|ps| - 1], ps[|ps| - 1].tags, searchTags)
  }

  lemma {:induction false} TagMatchesMembers(p: Placeholder, tags: seq<string>, st: string, q: Placeholder)
    ensures q in TagMatches(p, tags, st) <==> q == p && exists i :: 0 <= i < |tags| && Contains(tags[i], st)
    decreases |tags|
  {
    if tags != [] {
      var front := tags[..|tags| - 1];
      TagMatchesMembers(p, front, st, q);
      if exists i :: 0 <= i < |front| && Contains(front[i], st) {
        var i :| 0 <= i < |front| && Contains(front[i], st);
        assert tags[i] == front[i];
      }
      if exists i :: 0 <= i < |tags| && Contains(tags[i], st) {
        var i :| 0 <= i < |tags| && Contains(tags[i], st);
        if i < |front| {
          assert front[i] == tags[i];
        }
      }
    }
  }

  lemma {:induction false} SearchMatchesMembers(p: Placeholder, tags: seq<string>, searchTags: seq<string>, q: Placeholder)
    ensures q in SearchMatches(p, tags, searchTags) <==> q == p && Matches(tags, searchTags)
    decreases |searchTags|
  {
    if searchTags != [] {
      var front := searchTags[..|searchTags| - 1];
      var st := searchTags[|searchTags| - 1];
      SearchMatchesMembers(p, tags, front, q);
      TagMatchesMembers(p, tags, st, q);
      MatchesSnoc(tags, searchTags);
    }
  }

  lemma MatchesSnoc(tags: seq<string>, searchTags: seq<string>)
    requires searchTags != []
    ensures Matches(tags, searchTags) <==>
              (Matches(tags, searchTags[..|searchTags| - 1])
               || exists i :: 0 <= i < |tags| && Contains(tags[i], searchTags[|searchTags| - 1]))
  {
    var front := searchTags[..|searchTags| - 1];
    if Matches(tags, front) {
      var a, i :| 0 <= a < |front| && 0 <= i < |tags| && Contains(tags[i], front[a]);
      assert searchTags[a] == front[a];
    }
    if Matches(tags, searchTags) {
      var a, i :| 0 <= a < |searchTags| && 0 <= i < |tags| && Contains(tags[i], searchTags[a]);
      if a < |front| {
        assert front[a] == searchTags[a];
      }
    }
  }

  /** `find_placeholders(*search_tags)` reports exactly the placeholders one
      of whose tags contains one of the search tags. */
  lemma {:induction false} FoundMembers(ps: seq<Placeholder>, searchTags: seq<string>, q: Placeholder)
    ensures q in Found(ps, searchTags) <==> exists k :: 0 <= k < |ps| && ps[k] == q && Matches(ps[k].tags, searchTags)
    decreases |ps|
  {
    if ps != [] {
      var front := ps[..|ps| - 1];
      var last := ps[|ps| - 1];
      FoundMembers(front, searchTags, q);
      SearchMatchesMembers(last, last.tags, searchTags, q);
      assert forall k :: 0 <= k < |front| ==> front[k] == ps[k];
    }
  }
}
