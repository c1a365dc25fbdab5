/** Python dictionaries keep insertion order; `Plan.placeholders` is iterated
    in that order by `find_placeholders`. A `Dict` is the record of the
    assignments `d[k] = v` made to the dictionary, oldest first; what the
    dictionary holds (its mapping, its key order, its values) is read off
    that record. */
module Dicts {

  datatype Dict<K(==), V> = Dict(log: seq<(K, V)>) {

    /** The dictionary before its last assignment. */
    function Front(): Dict<K, V>
      requires log != []
    {
      Dict(log[..|log| - 1])
    }

    /** The mapping: each assigned key to the value of its last assignment. */
    function Entries(): map<K, V>
      decreases |log|
    {
      if log == [] then map[]
      else Front().Entries()[log[|log| - 1].0 := log[|log| - 1].1]
    }

    /** The keys in the order of their first assignment: each key of the
        mapping exactly once. */
    function Keys(): (ks: seq<K>)
      ensures Elems(ks) == Entries().Keys
      ensures forall i, j :: 0 <= i < j < |ks| ==> ks[i] != ks[j]
      decreases |log|
    {
      if log == [] then []
      else
        var k := log[|log| - 1].0;
        var fk := Front().Keys();
        ElemsAppend(fk, k);
        if k in Front().Entries() then fk else fk + [k]
    }

    /** `d[k] = v`. */
    function Put(k: K, v: V): Dict<K, V> {
      Dict(log + [(k, v)])
    }

    /** `d.values()`, in key order. */
    function Values(): (vs: seq<V>)
      ensures |vs| == |Keys()|
      ensures forall i :: 0 <= i < |vs| ==> vs[i] == Entries()[Keys()[i]]
    {
      var ks := Keys();
      ElemsMembers(ks);
      seq(|ks|, i requires 0 <= i < |ks| => Entries()[ks[i]])
    }
  }

  /** An assignment maps its key to its value and leaves the other keys. */
  lemma PutEntries<K, V>(d: Dict<K, V>, k: K, v: V)
    ensures d.Put(k, v).Entries() == d.Entries()[k := v]
  {
    assert d.Put(k, v).Front() == d;
  }

  /** A new key goes to the end of the key order; an existing key keeps its
      place. */
  lemma PutKeys<K, V>(d: Dict<K, V>, k: K, v: V)
    ensures d.Put(k, v).Keys() == if k in d.Entries() then d.Keys() else d.Keys() + [k]
  {
    assert d.Put(k, v).Front() == d;
  }

  /** The values are exactly what the keys are mapped to. */
  lemma ValuesMembers<K, V>(d: Dict<K, V>, v: V)
    ensures v in d.Values() <==> exists k :: k in d.Entries() && d.Entries()[k] == v
  {
    var ks, vs := d.Keys(), d.Values();
    ElemsMembers(ks);
    if v in vs {
      var i :| 0 <= i < |vs| && vs[i] == v;
      assert ks[i] in d.Entries() && d.Entries()[ks[i]] == v;
    }
    if exists k :: k in d.Entries() && d.Entries()[k] == v {
      var k :| k in d.Entries() && d.Entries()[k] == v;
      assert k in ks;
      var i :| 0 <= i < |ks| && ks[i] == k;
      assert vs[i] == v;
    }
  }

  /** The empty dictionary. */
  function Empty<K(==), V>(): (d: Dict<K, V>)
    ensures d.Entries() == map[] && d.Keys() == []
  {
    Dict([])
  }

  /** The elements of a sequence, as a set. */
  function Elems<K>(s: seq<K>): set<K> {
    set i | 0 <= i < |s| :: s[i]
  }

  lemma ElemsAppend<K>(s: seq<K>, x: K)
    ensures Elems(s + [x]) == Elems(s) + {x}
  {
    var t := s + [x];
    assert forall y :: y in Elems(t) ==> y in Elems(s) + {x} by {
      forall y | y in Elems(t) ensures y in Elems(s) + {x} {
        var i :| 0 <= i < |t| && t[i] == y;
        if i < |s| { assert s[i] == y; }
      }
    }
    assert forall y :: y in Elems(s) + {x} ==> y in Elems(t) by {
      forall y | y in Elems(s) + {x} ensures y in Elems(t) {
        if y == x { assert t[|s|] == x; } else {
          var i :| 0 <= i < |s| && s[i] == y;
          assert t[i] == y;
        }
      }
    }
  }

  /** A value is an element exactly when it occurs in the sequence. */
  lemma ElemsMembers<K>(s: seq<K>)
    ensures forall x :: x in Elems(s) <==> x in s
  {
    forall x | x in Elems(s) ensures x in s {
      var i :| 0 <= i < |s| && s[i] == x;
    }
  }

  /** The pairs `(ks[i], vs[i])`, in order. */
  function Pairs<K, V>(ks: seq<K>, vs: seq<V>): (ps: seq<(K, V)>)
    requires |ks| == |vs|
    ensures |ps| == |ks| && forall i :: 0 <= i < |ks| ==> ps[i] == (ks[i], vs[i])
  {
    seq(|ks|, i requires 0 <= i < |ks| => (ks[i], vs[i]))
  }

  /** The effect of `d[ks[i]] = vs[i]` for i = 0, 1, ... in turn. */
  function PutAll<K(==), V>(d: Dict<K, V>, ks: seq<K>, vs: seq<V>): Dict<K, V>
    requires |ks| == |vs|
  {
    Dict(d.log + Pairs(ks, vs))
  }

  /** One more assignment at the end is one more `Put`: `PutAll` is the
      assignments made one at a time. */
  lemma PutAllSnoc<K, V>(d: Dict<K, V>, ks: seq<K>, vs: seq<V>, k: K, v: V)
    requires |ks| == |vs|
    ensures PutAll(d, ks + [k], vs + [v]) == PutAll(d, ks, vs).Put(k, v)
  {
    assert Pairs(ks + [k], vs + [v]) == Pairs(ks, vs) + [(k, v)];
  }

  /** `PutAll` adds exactly the assigned keys and leaves every other entry
      as it was. */
  lemma {:induction false} PutAllKeys<K, V>(d: Dict<K, V>, ks: seq<K>, vs: seq<V>)
    requires |ks| == |vs|
    ensures PutAll(d, ks, vs).Entries().Keys == d.Entries().Keys + Elems(ks)
    ensures forall k :: k in d.Entries() && k !in ks ==> PutAll(d, ks, vs).Entries()[k] == d.Entries()[k]
    decreases |ks|
  {
    if ks == [] {
      assert d.log + Pairs(ks, vs) == d.log;
    } else {
      var front, last := ks[..|ks| - 1], ks[|ks| - 1];
      var vfront, vlast := vs[..|vs| - 1], vs[|vs| - 1];
      assert ks == front + [last] && vs == vfront + [vlast];
      PutAllSnoc(d, front, vfront, last, vlast);
      PutEntries(PutAll(d, front, vfront), last, vlast);
      ElemsAppend(front, last);
      PutAllKeys(d, front, vfront);
    }
  }

  /** After `PutAll`, each key holds the value of its last assignment. */
  lemma {:induction false} PutAllLastWins<K, V>(d: Dict<K, V>, ks: seq<K>, vs: seq<V>, i: nat)
    requires |ks| == |vs| && i < |ks|
    requires forall j :: i < j < |ks| ==> ks[j] != ks[i]
    ensures ks[i] in PutAll(d, ks, vs).Entries() && PutAll(d, ks, vs).Entries()[ks[i]] == vs[i]
    decreases |ks|
  {
    var front, last := ks[..|ks| - 1], ks[|ks| - 1];
    var vfront, vlast := vs[..|vs| - 1], vs[|vs| - 1];
    assert ks == front + [last] && vs == vfront + [vlast];
    PutAllSnoc(d, front, vfront, last, vlast);
    PutEntries(PutAll(d, front, vfront), last, vlast);
    if i < |ks| - 1 {
      PutAllLastWins(d, front, vfront, i);
    }
  }
}
