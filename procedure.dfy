/** `Procedure`: the operations of a plan together with the placeholder lists
    of its inputs and outputs. The three lists are mutable Python lists, so
    they are `ListRef`s that two procedures can share. */
module Procedures {
  import opened Values
  import opened Strings
  import opened Placeholders

  /** A (serialized) operation of the plan, kept opaque. In the code an
      operation holds the placeholders of its arguments and results; here it
      holds only their ids, so detailing it touches no placeholder table. */
  datatype Operation = Operation(command: string, argIds: seq<Id>, returnIds: seq<Id>)

  /** What `Procedure.simplify` produces: the operations as they are and the
      wire triples of both placeholder lists. */
  datatype ProcedureWire = ProcedureWire(operations: seq<Operation>, inputs: seq<Wire>, outputs: seq<Wire>)

  /** The text `__str__` starts with, before the operation count. */
  const Prefix := "<Procedure #operations:"

  class Procedure {
    const operations: ListRef<Operation>
    const inputPlaceholders: ListRef<Placeholder>
    const outputPlaceholders: ListRef<Placeholder>

    /** `Procedure(operations, input_placeholders, output_placeholders)`:
        `x or []` keeps a given non-empty list (the very same object) and
        replaces None or an empty list by a new empty list. */
    constructor (operations: ListRef?<Operation>, inputPlaceholders: ListRef?<Placeholder>,
                 outputPlaceholders: ListRef?<Placeholder>)
      ensures operations != null && operations.elems != [] ==> this.operations == operations
      ensures !(operations != null && operations.elems != []) ==> fresh(this.operations) && this.operations.elems == []
      ensures inputPlaceholders != null && inputPlaceholders.elems != [] ==> this.inputPlaceholders == inputPlaceholders
      ensures !(inputPlaceholders != null && inputPlaceholders.elems != []) ==>
                fresh(this.inputPlaceholders) && this.inputPlaceholders.elems == []
      ensures outputPlaceholders != null && outputPlaceholders.elems != [] ==> this.outputPlaceholders == outputPlaceholders
      ensures !(outputPlaceholders != null && outputPlaceholders.elems != []) ==>
                fresh(this.outputPlaceholders) && this.outputPlaceholders.elems == []
    {
      var ops := OrEmpty(operations);
      var ins := OrEmpty(inputPlaceholders);
      var outs := OrEmpty(outputPlaceholders);
      this.operations := ops;
      this.inputPlaceholders := ins;
      this.outputPlaceholders := outs;
    }

    /** `__str__`: `"<Procedure #operations:N>"` with N the number of
        operations. */
    function ToString(): (s: string)
      reads operations
      ensures |s| > |Prefix| && s[..|Prefix|] == Prefix && s[|s| - 1] == '>'
      ensures AllDigits(s[|Prefix|..|s| - 1]) && ParseNat(s[|Prefix|..|s| - 1]) == |operations.elems|
      ensures s[|Prefix|] == '0' <==> |operations.elems| == 0
      ensures |operations.elems| == 0 ==> |s| == |Prefix| + 2
    {
      var digits := NatToString(|operations.elems|);
      ParseNatToString(|operations.elems|);
      NatToStringDigits(|operations.elems|);
      var s := Prefix + digits + ">";
      assert s[|Prefix|..|s| - 1] == digits;
      s
    }

    /** `copy()`: a new procedure built from this one's three lists, so each
        non-empty list is shared with the copy (an append through either is
        seen by both), while an empty one is replaced by a new empty list. */
    method Copy() returns (p: Procedure)
      ensures fresh(p) && p != this
      ensures operations.elems != [] ==> p.operations == operations
      ensures inputPlaceholders.elems != [] ==> p.inputPlaceholders == inputPlaceholders
      ensures outputPlaceholders.elems != [] ==> p.outputPlaceholders == outputPlaceholders
      ensures p.operations.elems == operations.elems
      ensures p.inputPlaceholders.elems == inputPlaceholders.elems
      ensures p.outputPlaceholders.elems == outputPlaceholders.elems
    {
      p := new Procedure(operations, inputPlaceholders, outputPlaceholders);
    }

    /** `update_inputs(args)`: the i-th input placeholder is instantiated with
        the i-th argument, as far as the shorter of the two lists goes; the
        lists themselves are left as they are. */
    method UpdateInputs(args: seq<Value>)
      modifies inputPlaceholders.elems`child
      ensures forall p :: p in inputPlaceholders.elems ==>
                p.child == ZipChild(inputPlaceholders.elems, args, p, old(p.child))
      ensures NoDuplicates(inputPlaceholders.elems) ==>
                forall i :: 0 <= i < Min(|inputPlaceholders.elems|, |args|) ==>
                  inputPlaceholders.elems[i].child == Some(Unwrap(args[i]))
    {
      InstantiateZip(inputPlaceholders.elems, args);
    }

    /** `Procedure.simplify`: the operations unchanged and each placeholder
        list element by element through `PlaceHolder.simplify`. */
    function Simplify(): (t: ProcedureWire)
      reads this, operations, inputPlaceholders, outputPlaceholders, inputPlaceholders.elems`tags, outputPlaceholders.elems`tags
      ensures t.operations == operations.elems
      ensures |t.inputs| == |inputPlaceholders.elems| && |t.outputs| == |outputPlaceholders.elems|
      ensures forall i :: 0 <= i < |t.inputs| ==> t.inputs[i] == inputPlaceholders.elems[i].Simplify()
      ensures forall i :: 0 <= i < |t.outputs| ==> t.outputs[i] == outputPlaceholders.elems[i].Simplify()
    {
      ProcedureWire(operations.elems, WiresOf(inputPlaceholders.elems), WiresOf(outputPlaceholders.elems))
    }
  }

  /** `x or []` on a list argument. */
  method OrEmpty<T>(xs: ListRef?<T>) returns (r: ListRef<T>)
    ensures xs != null && xs.elems != [] ==> r == xs
    ensures !(xs != null && xs.elems != []) ==> fresh(r) && r.elems == []
  {
    if xs != null && xs.elems != [] {
      r := xs;
    } else {
      r := new ListRef([]);
    }
  }

  /** `Procedure.detail(worker, (operations, inputs, outputs))`: the
      operations come back as they are; the inputs, then the outputs, go
      through the placeholder table, owned by the worker; the three lists make
      a new procedure. Whether a placeholder is new is judged over the inputs
      followed by the outputs, the order in which they reach the table. */
  method Detail(worker: Option<Id>, hook: Hook, provider: IdProvider, t: ProcedureWire) returns (p: Procedure)
    modifies hook, provider
    ensures fresh(p)
    ensures p.operations.elems == t.operations
    ensures |p.inputPlaceholders.elems| == |t.inputs| && |p.outputPlaceholders.elems| == |t.outputs|
    ensures forall i :: 0 <= i < |t.inputs| ==> Memo(hook.placeholders, t.inputs[i], p.inputPlaceholders.elems[i])
    ensures forall i :: 0 <= i < |t.outputs| ==> Memo(hook.placeholders, t.outputs[i], p.outputPlaceholders.elems[i])
    ensures forall k :: k in old(hook.placeholders) ==> k in hook.placeholders && hook.placeholders[k] == old(hook.placeholders[k])
    ensures forall k :: k in hook.placeholders && k !in old(hook.placeholders) ==>
              k in KeysOf(t.inputs + t.outputs) && fresh(hook.placeholders[k]) && hook.placeholders[k].child == None
    ensures var ws, ps := t.inputs + t.outputs, p.inputPlaceholders.elems + p.outputPlaceholders.elems;
            forall i :: 0 <= i < |ws| && New(old(hook.placeholders), ws, i) ==>
              MadeFrom(ps[i], ws[i], worker, old(provider.next))
  {
    var ins := DetailList(worker, hook, provider, t.inputs);
    ghost var mid, lo := hook.placeholders, provider.next;
    var outs := DetailList(worker, hook, provider, t.outputs);
    forall i | 0 <= i < |t.inputs| ensures Memo(hook.placeholders, t.inputs[i], ins[i]) {
      assert Memo(mid, t.inputs[i], ins[i]);
    }
    MadeFromJoin(old(hook.placeholders), mid, t.inputs, t.outputs, ins, outs, worker, old(provider.next), lo);
    var opsList := new ListRef(t.operations);
    var insList := new ListRef(ins);
    var outsList := new ListRef(outs);
    p := new Procedure(opsList, insList, outsList);
  }

  /** The placeholders made by detailing the inputs from `table0` (leaving
      `table1`) and then the outputs from `table1` are made from their wires
      as one detail over the inputs followed by the outputs would make them. */
  lemma MadeFromJoin(table0: map<string, Placeholder>, table1: map<string, Placeholder>, a: seq<Wire>, b: seq<Wire>,
                     ins: seq<Placeholder>, outs: seq<Placeholder>, worker: Option<Id>, lo0: Id, lo1: Id)
    requires |ins| == |a| && |outs| == |b| && lo0 <= lo1
    requires forall key :: key in table1 ==> key in table0 || key in KeysOf(a)
    requires forall i :: 0 <= i < |a| && New(table0, a, i) ==> MadeFrom(ins[i], a[i], worker, lo0)
    requires forall i :: 0 <= i < |b| && New(table1, b, i) ==> MadeFrom(outs[i], b[i], worker, lo1)
    ensures forall i :: 0 <= i < |a + b| && New(table0, a + b, i) ==> MadeFrom((ins + outs)[i], (a + b)[i], worker, lo0)
  {
    forall i | 0 <= i < |a + b| && New(table0, a + b, i)
      ensures MadeFrom((ins + outs)[i], (a + b)[i], worker, lo0)
    {
      if i < |a| {
        NewBefore(table0, a, b, i);
        assert (ins + outs)[i] == ins[i] && (a + b)[i] == a[i];
      } else {
        NewAfter(table0, table1, a, b, i - |a|);
        assert (ins + outs)[i] == outs[i - |a|] && (a + b)[i] == b[i - |a|];
      }
    }
  }

  /** Whether an input is new does not depend on the outputs after it. */
  lemma NewBefore(table: map<string, Placeholder>, a: seq<Wire>, b: seq<Wire>, i: nat)
    requires i < |a|
    ensures New(table, a + b, i) <==> New(table, a, i)
  {
    assert (a + b)[..i] == a[..i];
  }

  /** An output new over the inputs followed by the outputs is new for the
      table the inputs left behind (which only gained input keys). */
  lemma NewAfter(table0: map<string, Placeholder>, table1: map<string, Placeholder>, a: seq<Wire>, b: seq<Wire>, k: nat)
    requires k < |b|
    requires forall key :: key in table1 ==> key in table0 || key in KeysOf(a)
    ensures New(table0, a + b, |a| + k) ==> New(table1, b, k)
  {
    assert (a + b)[..|a| + k] == a + b[..k];
    assert (a + b)[|a| + k] == b[k];
  }

  /** Every wire of `t` has a truthy id and a tag key the table does not
      hold, and wires with one tag key are one wire. */
  predicate AllNew(t: ProcedureWire, table: map<string, Placeholder>) {
    var ws := t.inputs + t.outputs;
    && (forall i :: 0 <= i < |ws| ==> TableKey(ws[i].tags) !in table && ws[i].id != 0)
    && SameKeySameWire(ws)
  }

  /** `detail(simplify(p))` on a table that holds none of p's tag keys, as
      the table `Plan.detail` empties before detailing the procedure, when
      placeholders with one tag key are one placeholder and every id is
      truthy: the same operations, and new unbound placeholders owned by the
      worker that simplify to the same wires, inputs and outputs alike. */
  method RoundTrip(p: Procedure, worker: Option<Id>, hook: Hook, provider: IdProvider) returns (q: Procedure)
    requires AllNew(p.Simplify(), hook.placeholders)
    modifies hook, provider
    ensures fresh(q)
    ensures q.Simplify() == p.Simplify()
    ensures forall x :: x in q.inputPlaceholders.elems + q.outputPlaceholders.elems ==>
              fresh(x) && x.owner == worker && x.child == None
  {
    var t := p.Simplify();
    q := DetailNew(worker, hook, provider, t);
  }

  /** `Detail` of a procedure wire whose tag keys are all new to the table:
      every placeholder it gives back is new, unbound, owned by the worker
      and simplifies back to its wire. */
  method DetailNew(worker: Option<Id>, hook: Hook, provider: IdProvider, t: ProcedureWire) returns (q: Procedure)
    requires AllNew(t, hook.placeholders)
    modifies hook, provider
    ensures fresh(q)
    ensures q.Simplify() == t
    ensures forall x :: x in q.inputPlaceholders.elems + q.outputPlaceholders.elems ==>
              fresh(x) && x.owner == worker && x.child == None
  {
    q := Detail(worker, hook, provider, t);
    WiresBack(old(hook.placeholders), hook.placeholders, t, q.inputPlaceholders.elems, q.outputPlaceholders.elems,
              worker, old(provider.next));
    forall x | x in q.inputPlaceholders.elems + q.outputPlaceholders.elems ensures fresh(x) {
      var k :| k in hook.placeholders && k !in old(hook.placeholders) && hook.placeholders[k] == x;
    }
  }

  /** The core of `RoundTrip`, on the lists `Detail` returns: each placeholder
      is the new one made for its tag key, so it is unbound, owned by the
      worker and simplifies back to its wire. */
  lemma WiresBack(table0: map<string, Placeholder>, table: map<string, Placeholder>, t: ProcedureWire,
                  ins: seq<Placeholder>, outs: seq<Placeholder>, worker: Option<Id>, lo: Id)
    requires |ins| == |t.inputs| && |outs| == |t.outputs|
    requires forall i :: 0 <= i < |t.inputs| ==> Memo(table, t.inputs[i], ins[i])
    requires forall i :: 0 <= i < |t.outputs| ==> Memo(table, t.outputs[i], outs[i])
    requires forall k :: k in table && k !in table0 ==> table[k].child == None
    requires var ws := t.inputs + t.outputs;
             && (forall i :: 0 <= i < |ws| && New(table0, ws, i) ==> MadeFrom((ins + outs)[i], ws[i], worker, lo))
             && (forall i :: 0 <= i < |ws| ==> TableKey(ws[i].tags) !in table0 && ws[i].id != 0)
             && SameKeySameWire(ws)
    ensures WiresOf(ins) == t.inputs && WiresOf(outs) == t.outputs
    ensures forall x :: x in ins + outs ==>
              exists k :: k in table && k !in table0 && table[k] == x && x.owner == worker && x.child == None
  {
    var ws, ps := t.inputs + t.outputs, ins + outs;
    forall i | 0 <= i < |ws| ensures Memo(table, ws[i], ps[i]) {
      if i < |ins| {
        assert ws[i] == t.inputs[i] && ps[i] == ins[i];
      } else {
        assert ws[i] == t.outputs[i - |ins|] && ps[i] == outs[i - |ins|];
      }
    }
    DetailedWires(table0, table, ws, ps, worker, lo);
    forall x | x in ps
      ensures exists k :: k in table && k !in table0 && table[k] == x && x.owner == worker && x.child == None
    {
      var i :| 0 <= i < |ps| && ps[i] == x;
      assert Memo(table, ws[i], ps[i]);
      assert TableKey(ws[i].tags) !in table0;
    }
    forall i | 0 <= i < |ins| ensures ins[i].Simplify() == t.inputs[i] {
      assert ps[i] == ins[i] && ws[i] == t.inputs[i];
    }
    forall i | 0 <= i < |outs| ensures outs[i].Simplify() == t.outputs[i] {
      assert ps[|ins| + i] == outs[i] && ws[|ins| + i] == t.outputs[i];
    }
    WiresOfElems(ins, t.inputs);
    WiresOfElems(outs, t.outputs);
  }
}
