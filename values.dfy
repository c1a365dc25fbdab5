/** Shared vocabulary of the model: identities, optional values, the errors the
    Python code raises, the opaque tensor-like values bound to placeholders,
    the process-wide identity provider and mutable Python lists. */
module Values {

  /** Object identities (Python ints or strings); 0 is the one falsy identity. */
  type Id = int

  datatype Option<T> = None | Some(value: T)

  /** The exceptions raised by the modelled code. */
  datatype Error =
    | AttributeError(attribute: string)
    | TypeError(typeName: string)
    | ValueError(shape: seq<int>)
    | RuntimeError(message: string)

  datatype Result<T> = Ok(value: T) | Err(error: Error)

  /** A tensor is opaque except for its identity and an optional wrapped child.
      `child == None` stands both for "no child attribute" and for a child
      attribute holding None. */
  datatype Value = Value(id: Id, isWrapper: bool, child: Option<Value>)

  /** What `PlaceHolder.instantiate` keeps of a tensor: the wrapped child when
      the tensor is a wrapper with a child, the tensor itself otherwise. */
  function Unwrap(t: Value): (r: Value)
    ensures t.isWrapper && t.child.Some? ==> r == t.child.value
    ensures !(t.isWrapper && t.child.Some?) ==> r == t
  {
    if t.isWrapper && t.child.Some? then t.child.value else t
  }

  /** Python truthiness of an optional identity: None and 0 are falsy. */
  predicate IsTruthy(id: Option<Id>) {
    id.Some? && id.value != 0
  }

  /** The identity provider (`syft.ID_PROVIDER`): every pop hands out an
      identity it never handed out before. */
  class IdProvider {
    var next: Id

    constructor (start: Id)
      ensures next == start
    {
      next := start;
    }

    method Pop() returns (id: Id)
      modifies this
      ensures id == old(next) && next == old(next) + 1
    {
      id := next;
      next := next + 1;
    }
  }

  /** A mutable Python list: a reference, so two holders of the same list see
      each other's appends. */
  class ListRef<T> {
    var elems: seq<T>

    constructor (elems: seq<T>)
      ensures this.elems == elems
    {
      this.elems := elems;
    }

    method Append(x: T)
      modifies this
      ensures elems == old(elems) + [x]
    {
      elems := elems + [x];
    }
  }
}
