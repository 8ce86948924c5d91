/**
 * The values of the runtime (rt/object.go): every value is a heap object
 * with its own property table, so that mutation through one reference is
 * seen through every other.  A reference is a positive index into the heap;
 * reference 0, and any reference outside the heap, stands for Go's nil.
 */
module RtObjects {
  import opened Wrappers
  import opened Faults
  import opened Ints
  import opened Strings
  import opened Ast

  type Ref = nat

  const Nil: Ref := 0

  /** A property table: user fields, built-in methods and dict entries. */
  type Props = map<string, Ref>

  datatype Obj =
    | StrObj(props: Props, s: string)
    | BoolObj(props: Props, b: bool)
    | IntObj(props: Props, v: Int64)
    | FloatObj(props: Props, f: real)
    | ArrayObj(props: Props, vals: seq<Ref>)
    | SetObj(props: Props, vals: seq<Ref>)
    | DictObj(props: Props)
      /** A user function (decl present), a registry builtin (no decl, nil
          receiver) or a method bound to a receiver (isBuiltin). */
    | FuncObj(props: Props, name: string, decl: Option<FuncDecl>, isBuiltin: bool, recv: Ref)

  /** Object r lives at index r - 1. */
  type Heap = seq<Obj>

  predicate Valid(h: Heap, r: Ref) { 1 <= r <= |h| }

  function At(h: Heap, r: Ref): Obj
    requires Valid(h, r)
  {
    h[r - 1]
  }

  /** Replaces object r in place: every holder of r sees the new object. */
  function Store(h: Heap, r: Ref, o: Obj): (h': Heap)
    requires Valid(h, r)
    ensures |h'| == |h| && At(h', r) == o
    ensures forall q :: Valid(h, q) && q != r ==> At(h', q) == At(h, q)
  {
    h[r - 1 := o]
  }

  /** Adds a new object; its reference was not in use before. */
  function Alloc(h: Heap, o: Obj): (res: (Heap, Ref))
    ensures !Valid(h, res.1) && Valid(res.0, res.1) && At(res.0, res.1) == o
    ensures |res.0| == |h| + 1
    ensures forall q :: Valid(h, q) ==> At(res.0, q) == At(h, q)
    ensures Extends(h, res.0)
  {
    (h + [o], |h| + 1)
  }

  /** `GetProp`: a missing key reads as nil. */
  function GetProp(p: Props, key: string): Ref
  {
    if key in p then p[key] else Nil
  }

  function SetProp(o: Obj, key: string, val: Ref): (o': Obj)
    ensures o'.props == o.props[key := val]
  {
    o.(props := o.props[key := val])
  }

  /** `Name()`: the type name of a value. */
  function TypeName(o: Obj): string
  {
    match o
    case StrObj(_, _) => "string"
    case BoolObj(_, _) => "bool"
    case IntObj(_, _) => "integer"
    case FloatObj(_, _) => "float"
    case ArrayObj(_, _) => "array"
    case SetObj(_, _) => "set"
    case DictObj(_) => "dict"
    case FuncObj(_, _, _, _, _) => "function"
  }

  /** The same variant: an object's type never changes after creation. */
  predicate SameKind(a: Obj, b: Obj)
  {
    TypeName(a) == TypeName(b)
  }

  /** h' is h after allocations and in-place mutations. */
  ghost predicate Extends(h: Heap, h': Heap)
  {
    |h| <= |h'| && forall q :: Valid(h, q) ==> SameKind(At(h, q), At(h', q))
  }

  lemma ExtendsTransitive(h1: Heap, h2: Heap, h3: Heap)
    requires Extends(h1, h2) && Extends(h2, h3)
    ensures Extends(h1, h3)
  {
    forall q | Valid(h1, q)
      ensures SameKind(At(h1, q), At(h3, q))
    {
      assert Valid(h2, q);
    }
  }

  // Constructors.  Each allocates the new object first and then, for
  // integers and arrays, the built-in methods bound to it.

  function NewString(h: Heap, s: string): (res: (Heap, Ref))
  {
    Alloc(h, StrObj(map[], s))
  }

  function NewBool(h: Heap, b: bool): (res: (Heap, Ref))
  {
    Alloc(h, BoolObj(map[], b))
  }

  function NewFloat(h: Heap, f: real): (res: (Heap, Ref))
  {
    Alloc(h, FloatObj(map[], f))
  }

  function NewSet(h: Heap, vals: seq<Ref>): (res: (Heap, Ref))
  {
    Alloc(h, SetObj(map[], vals))
  }

  function NewDict(h: Heap, fields: Props): (res: (Heap, Ref))
  {
    Alloc(h, DictObj(fields))
  }

  /** A user function (or a registry builtin when decl is None). */
  function NewFunc(h: Heap, name: string, decl: Option<FuncDecl>): (res: (Heap, Ref))
  {
    Alloc(h, FuncObj(map[], name, decl, false, Nil))
  }

  /** A built-in method that re-dispatches `name` on `recv`. */
  function BoundMethod(name: string, recv: Ref): Obj
  {
    FuncObj(map[], name, None, true, recv)
  }

  /** An integer, born with `times` and `abs` bound to itself. */
  function NewInteger(h: Heap, v: Int64): (res: (Heap, Ref))
    ensures Valid(res.0, res.1) && !Valid(h, res.1)
    ensures At(res.0, res.1).IntObj? && At(res.0, res.1).v == v
    ensures At(res.0, res.1).props.Keys == {"times", "abs"}
    ensures forall k :: k in At(res.0, res.1).props ==>
              var m := At(res.0, res.1).props[k];
              Valid(res.0, m) && At(res.0, m) == BoundMethod(k, res.1)
    ensures |res.0| == |h| + 3
    ensures forall q :: Valid(h, q) ==> At(res.0, q) == At(h, q)
    ensures Extends(h, res.0)
  {
    var r := |h| + 1;
    var props := map["times" := r + 1, "abs" := r + 2];
    (h + [IntObj(props, v), BoundMethod("times", r), BoundMethod("abs", r)], r)
  }

  /** An array, born with `append` and `length` bound to itself. */
  function NewArray(h: Heap, vals: seq<Ref>): (res: (Heap, Ref))
    ensures Valid(res.0, res.1) && !Valid(h, res.1)
    ensures At(res.0, res.1).ArrayObj? && At(res.0, res.1).vals == vals
    ensures At(res.0, res.1).props.Keys == {"append", "length"}
    ensures forall k :: k in At(res.0, res.1).props ==>
              var m := At(res.0, res.1).props[k];
              Valid(res.0, m) && At(res.0, m) == BoundMethod(k, res.1)
    ensures |res.0| == |h| + 3
    ensures forall q :: Valid(h, q) ==> At(res.0, q) == At(h, q)
    ensures Extends(h, res.0)
  {
    var r := |h| + 1;
    var props := map["append" := r + 1, "length" := r + 2];
    (h + [ArrayObj(props, vals), BoundMethod("append", r), BoundMethod("length", r)], r)
  }

  function BoolString(b: bool): string { if b then "true" else "false" }

  /**
   * `String()`: the display form.  Arrays and sets display their elements
   * recursively; Go recurses without bound through a cyclic array, which
   * the model reports as StackOverflow once the depth exceeds the number of
   * objects in the heap.
   */
  function Display(h: Heap, r: Ref): Result<string, Fault>
  {
    DisplayFuel(h, r, |h| + 1)
  }

  function DisplayFuel(h: Heap, r: Ref, fuel: nat): Result<string, Fault>
    decreases fuel, 0
  {
    if !Valid(h, r) then Err(NilDereference)
    else match At(h, r)
      case StrObj(_, s) => Ok(s)
      case BoolObj(_, b) => Ok(BoolString(b))
      case IntObj(_, v) => Ok(IntString(v))
      case FloatObj(_, _) => Err(Unmodelled("float formatting"))
      case ArrayObj(_, vals) =>
        if fuel == 0 then Err(StackOverflow)
        else (match DisplayAll(h, vals, fuel - 1)
          case Err(e) => Err(e)
          case Ok(parts) => Ok(ListDisplay("[", parts)))
      case SetObj(_, vals) =>
        if fuel == 0 then Err(StackOverflow)
        else (match DisplayAll(h, vals, fuel - 1)
          case Err(e) => Err(e)
          case Ok(parts) => Ok(ListDisplay("#[", parts)))
      case DictObj(_) => Err(Unmodelled("dict display order"))
      case FuncObj(_, name, _, _, _) => Ok(name)
  }

  function DisplayAll(h: Heap, rs: seq<Ref>, fuel: nat): (res: Result<seq<string>, Fault>)
    ensures res.Ok? ==> |res.value| == |rs|
    ensures res.Ok? ==> forall i :: 0 <= i < |rs| ==> DisplayFuel(h, rs[i], fuel) == Ok(res.value[i])
    decreases fuel, 1, |rs|
  {
    if |rs| == 0 then Ok([])
    else match DisplayFuel(h, rs[0], fuel)
      case Err(e) => Err(e)
      case Ok(first) =>
        match DisplayAll(h, rs[1..], fuel)
        case Err(e) => Err(e)
        case Ok(rest) => Ok([first] + rest)
  }

  /** The identity key `%p` gives aggregates: distinct for distinct refs. */
  function PointerKey(r: Ref): string
  {
    "0x" + NatString(r)
  }

  /**
   * `HashCode()`: the display form for strings, bools and integers, the
   * identity key for arrays, sets, dicts and functions.
   */
  function HashCode(h: Heap, r: Ref): Result<string, Fault>
  {
    if !Valid(h, r) then Err(NilDereference)
    else match At(h, r)
      case StrObj(_, s) => Ok(s)
      case BoolObj(_, b) => Ok(BoolString(b))
      case IntObj(_, v) => Ok(IntString(v))
      case FloatObj(_, _) => Err(Unmodelled("float formatting"))
      case _ => Ok(PointerKey(r))
  }
}
