/**
 JavaScript values as the SDK inspects them. Handlers and migration functions
 are never run by this model; what matters about them is which object they are
 (a `Map` keyed by function compares identities) and their `name` property.
 */
module Functions {

  /** A function object: its allocation identity and its `name` property. */
  datatype FnRef = FnRef(id: nat, name: string)

  /** The identity of a plain JavaScript object, such as an `AppConfig`. */
  type ObjRef = nat

  /**
   A value as the SDK tests it with `typeof … === "function"` and `Array.isArray`:
   a function, an array (with its current contents), `undefined`, or anything
   else (a string, a plain object, `null`, ...).
   */
  datatype JsValue<T> = Fn(f: FnRef) | Arr(items: seq<T>) | Absent | Other

  /** The allocator of function objects: every object created so far has an id below `next`. */
  datatype Heap = Heap(next: nat)

  /** True when `f` was created before the allocator reached `heap`. */
  predicate Allocated(heap: Heap, f: FnRef)
  {
    f.id < heap.next
  }

  /** The result of evaluating a function expression: the new allocator state and the new object. */
  datatype Allocation = Allocation(heap: Heap, fn: FnRef)

  /** Evaluate a function expression whose inferred `name` is `name`: a brand-new object. */
  function Alloc(heap: Heap, name: string): (r: Allocation)
    ensures !Allocated(heap, r.fn) && Allocated(r.heap, r.fn)
    ensures r.fn.name == name
    ensures forall f :: Allocated(heap, f) ==> Allocated(r.heap, f)
    ensures forall f :: Allocated(r.heap, f) ==> Allocated(heap, f) || f.id == r.fn.id
  {
    Allocation(Heap(heap.next + 1), FnRef(heap.next, name))
  }
}
