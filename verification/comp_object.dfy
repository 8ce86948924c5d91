/**
 * The older value model (comp/object.go): values with no property tables.
 * Strings, integers, floats and functions never change once made; an array
 * is mutated in place by `__set_index__`, so values live in a heap of their
 * own, where a reference is a positive index and 0 stands for Go's nil.
 */
module CompObjects {
  import opened Wrappers
  import opened Faults
  import opened Ints
  import opened Strings

  type Ref = nat

  datatype Value =
    | Str(s: string)
    | Integer(v: Int64)
    | Float(f: real)
    | Array(vals: seq<Ref>)
    | Set(vals: seq<Ref>)
      /** A function value; `hasNode` is false for a registry builtin. */
    | Func(name: string, hasNode: bool)

  type Heap = seq<Value>

  predicate Valid(h: Heap, r: Ref) { 1 <= r <= |h| }

  function At(h: Heap, r: Ref): Value
    requires Valid(h, r)
  {
    h[r - 1]
  }

  /** `Name()`: the type name of a value. */
  function TypeName(v: Value): string
  {
    match v
    case Str(_) => "string"
    case Integer(_) => "integer"
    case Float(_) => "float"
    case Array(_) => "array"
    case Set(_) => "set"
    case Func(_, _) => "function"
  }

  /** h' is h after allocations and in-place array writes. */
  ghost predicate Extends(h: Heap, h': Heap)
  {
    |h| <= |h'| && forall q :: Valid(h, q) ==> TypeName(At(h, q)) == TypeName(At(h', q))
  }

  /** The heap after a message, and the message's results. */
  datatype Outcome = Outcome(heap: Heap, results: seq<Ref>)

  /** One new value as the only result. */
  function Fresh(h: Heap, v: Value): (r: Outcome)
    ensures |r.heap| == |h| + 1 && r.heap[..|h|] == h
    ensures r.results == [|h| + 1] && Valid(r.heap, |h| + 1) && At(r.heap, |h| + 1) == v
  {
    Outcome(h + [v], [|h| + 1])
  }

  /** The process-wide builtin registry. */
  const Builtins: set<string> := {"print"}

  /**
   * `String()`: the display form.  Go recurses without bound through a
   * cyclic array; the model reports StackOverflow once the depth exceeds the
   * number of values in the heap.
   */
  function Display(h: Heap, r: Ref): Result<string, Fault>
  {
    DisplayFuel(h, r, |h| + 1)
  }

  function DisplayFuel(h: Heap, r: Ref, fuel: nat): Result<string, Fault>
    decreases fuel, 0
  {
    if !Valid(h, r) then Err(NilDereference)
    else match At(h, r)
      case Str(s) => Ok(s)
      case Integer(v) => Ok(IntString(v))
      case Float(_) => Err(Unmodelled("float formatting"))
      case Array(vals) =>
        if fuel == 0 then Err(StackOverflow)
        else (match DisplayAll(h, vals, fuel - 1)
          case Err(e) => Err(e)
          case Ok(parts) => Ok(ListDisplay("[", parts)))
      case Set(vals) =>
        if fuel == 0 then Err(StackOverflow)
        else (match DisplayAll(h, vals, fuel - 1)
          case Err(e) => Err(e)
          case Ok(parts) => Ok(ListDisplay("#[", parts)))
      case Func(name, _) => Ok(name)
  }

  function DisplayAll(h: Heap, rs: seq<Ref>, fuel: nat): (res: Result<seq<string>, Fault>)
    ensures res.Ok? ==> |res.value| == |rs|
    ensures res.Ok? ==> forall i :: 0 <= i < |rs| ==> DisplayFuel(h, rs[i], fuel) == Ok(res.value[i])
    ensures res.Err? ==> exists i :: 0 <= i < |rs| && DisplayFuel(h, rs[i], fuel) == Err(res.error)
    decreases fuel, 1, |rs|
  {
    if |rs| == 0 then Ok([])
    else match DisplayFuel(h, rs[0], fuel)
      case Err(e) => Err(e)
      case Ok(first) =>
        match DisplayAll(h, rs[1..], fuel)
        case Err(e) =>
          ghost var i :| 0 <= i < |rs[1..]| && DisplayFuel(h, rs[1..][i], fuel) == Err(e);
          assert DisplayFuel(h, rs[i + 1], fuel) == Err(e);
          Err(e)
        case Ok(rest) => Ok([first] + rest)
  }

  /**
   * The type switch on an arithmetic argument: an integer is converted to
   * float64, a float is taken as it is, anything else leaves the zero value.
   */
  function AsOperand(h: Heap, r: Ref): Operand
  {
    if Valid(h, r) && At(h, r).Integer? then IntVal(At(h, r).v)
    else if Valid(h, r) && At(h, r).Float? then FloatVal(At(h, r).f)
    else IntVal(0)
  }

  /** The value an operand becomes: `NewFloatObject(val)` or `NewIntegerObject(int(val))`. */
  function OperandValue(x: Operand): Value
  {
    match x
    case IntVal(n) => Integer(n)
    case FloatVal(f) => Float(f)
  }

  /**
   * `Dispatch`: every operation is a message sent to a value.  A message a
   * value does not know yields no results, except on an integer, which
   * answers any message it does not compute with its argument's value.
   */
  function Dispatch(h: Heap, self: Ref, msg: string, args: seq<Ref>): (r: Result<Outcome, Fault>)
    ensures r.Ok? ==> Extends(h, r.value.heap)
  {
    if !Valid(h, self) then Err(NilDereference)
    else match At(h, self)
      case Str(s) => StrDispatch(h, s, msg, args)
      case Integer(a) => IntDispatch(h, a, msg, args)
      case Float(_) => FloatDispatch(h, msg, args)
      case Array(vals) => ArrayDispatch(h, self, vals, msg, args)
      case Set(_) => Ok(Outcome(h, []))
      case Func(name, hasNode) => Ok(Outcome(h, CallBuiltin(name, hasNode, msg, args)))
  }

  /** Strings know only `__add__`, which displays its argument. */
  function StrDispatch(h: Heap, s: string, msg: string, args: seq<Ref>): (r: Result<Outcome, Fault>)
    ensures r.Ok? ==> Extends(h, r.value.heap)
  {
    if msg != "__add__" then Ok(Outcome(h, []))
    else if |args| == 0 then Err(IndexOutOfRange)
    else match Display(h, args[0])
      case Err(e) => Err(e)
      case Ok(d) => Ok(Fresh(h, Str(s + d)))
  }

  /**
   * The ten arithmetic messages go through float64, as in the newer
   * runtime's integer; any other message echoes the argument's float64
   * value back as an integer, or as a float when the argument was a float.
   */
  function IntDispatch(h: Heap, a: Int64, msg: string, args: seq<Ref>): (r: Result<Outcome, Fault>)
    ensures r.Ok? ==> Extends(h, r.value.heap)
  {
    if |args| == 0 then Err(IndexOutOfRange)
    else
      var arg := AsOperand(h, args[0]);
      var out := match IntBinop(msg, a, arg)
        case Some(x) => x
        case None =>
          match arg
          case IntVal(b) => Tagged(false, b)
          case FloatVal(f) => Ok(FloatVal(f));
      match out
      case Err(e) => Err(e)
      case Ok(x) => Ok(Fresh(h, OperandValue(x)))
  }

  /**
   * A float converts its argument like an integer does; the four operators
   * round in float64, which the model does not compute, and any other message
   * returns the argument's value as a float.
   */
  function FloatDispatch(h: Heap, msg: string, args: seq<Ref>): (r: Result<Outcome, Fault>)
    ensures r.Ok? ==> Extends(h, r.value.heap)
  {
    if |args| == 0 then Err(IndexOutOfRange)
    else if msg in {"__add__", "__sub__", "__mul__", "__quo__"} then Err(Unmodelled("float arithmetic"))
    else match AsOperand(h, args[0])
      case IntVal(b) =>
        if Exact53(b) then Ok(Fresh(h, Float(b as real))) else Err(OutsideExactFloatRange)
      case FloatVal(f) => Ok(Fresh(h, Float(f)))
  }

  /** `args[i].(*IntegerObject).val`. */
  function IndexArg(h: Heap, args: seq<Ref>): Result<Int64, Fault>
  {
    if |args| == 0 then Err(IndexOutOfRange)
    else if Valid(h, args[0]) && At(h, args[0]).Integer? then Ok(At(h, args[0]).v)
    else Err(TypeAssertion("integer"))
  }

  /** Arrays: indexing reads and writes the element slice in place. */
  function ArrayDispatch(h: Heap, self: Ref, vals: seq<Ref>, msg: string, args: seq<Ref>): (r: Result<Outcome, Fault>)
    requires Valid(h, self) && At(h, self) == Array(vals)
    ensures r.Ok? ==> Extends(h, r.value.heap)
  {
    if msg == "__get_index__" then
      match IndexArg(h, args)
      case Err(e) => Err(e)
      case Ok(i) =>
        if 0 <= i < |vals| then Ok(Outcome(h, [vals[i]])) else Err(IndexOutOfRange)
    else if msg == "__set_index__" then
      match IndexArg(h, args)
      case Err(e) => Err(e)
      case Ok(i) =>
        if |args| < 2 || !(0 <= i < |vals|) then Err(IndexOutOfRange)
        else Ok(Outcome(h[self - 1 := Array(vals[i := args[1]])], []))
    else
      // `__add__` prints a trace line and returns nothing.
      Ok(Outcome(h, []))
  }

  /** `__call__` on a node-less function runs a registry builtin; nothing returns results. */
  function CallBuiltin(name: string, hasNode: bool, msg: string, args: seq<Ref>): seq<Ref>
  {
    // `print` writes its arguments to standard output and returns nothing.
    []
  }

  // ---------------------------------------------------------------------
  // Properties.

  predicate IsValue(h: Heap, r: Ref, kind: string)
  {
    Valid(h, r) && TypeName(At(h, r)) == kind
  }

  /**
   * Any message an integer answers returns one new value, which is a float
   * exactly when the argument was a float; the receiver is left as it was.
   */
  lemma IntegerResultFollowsArgument(h: Heap, self: Ref, msg: string, args: seq<Ref>)
    requires IsValue(h, self, "integer") && |args| > 0
    requires Dispatch(h, self, msg, args).Ok?
    ensures var o := Dispatch(h, self, msg, args).value;
            && |o.results| == 1 && o.heap[..|h|] == h && !Valid(h, o.results[0])
            && (IsValue(o.heap, o.results[0], "float") <==> IsValue(h, args[0], "float"))
            && (IsValue(o.heap, o.results[0], "integer") <==> !IsValue(h, args[0], "float"))
  {
  }

  /** Integer addition, subtraction and multiplication are exact inside 2^53. */
  lemma IntegerArith(h: Heap, self: Ref, arg: Ref, msg: string)
    requires IsValue(h, self, "integer") && IsValue(h, arg, "integer")
    requires msg in {"__add__", "__sub__", "__mul__"}
    requires var a, b := At(h, self).v, At(h, arg).v;
             Exact53(a) && Exact53(b)
             && Exact53(if msg == "__add__" then a + b else if msg == "__sub__" then a - b else a * b)
    ensures var a, b := At(h, self).v, At(h, arg).v;
            Dispatch(h, self, msg, [arg]) ==
              Ok(Fresh(h, Integer(if msg == "__add__" then a + b else if msg == "__sub__" then a - b else a * b)))
  {
    var a, b := At(h, self).v, At(h, arg).v;
    assert IntBinop(msg, a, IntVal(b)).Some?;
  }

  /** The bitwise messages act on the 64-bit two's-complement forms. */
  lemma IntegerBitwise(h: Heap, self: Ref, arg: Ref, msg: string)
    requires IsValue(h, self, "integer") && IsValue(h, arg, "integer")
    requires msg in {"__and__", "__or__", "__xor__"} && Exact53(At(h, arg).v)
    requires var a, b := At(h, self).v, At(h, arg).v;
             Exact53(if msg == "__and__" then And64(a, b) else if msg == "__or__" then Or64(a, b) else Xor64(a, b))
    ensures var a, b := At(h, self).v, At(h, arg).v;
            Dispatch(h, self, msg, [arg]) ==
              Ok(Fresh(h, Integer(if msg == "__and__" then And64(a, b) else if msg == "__or__" then Or64(a, b) else Xor64(a, b))))
  {
    var a, b := At(h, self).v, At(h, arg).v;
    assert IntBinop(msg, a, IntVal(b)).Some?;
  }

  /**
   * `__quo__` and `__rem__` of two integers: the quotient truncates toward
   * zero and the remainder takes the sign of the dividend.
   */
  lemma IntegerQuoRem(h: Heap, self: Ref, arg: Ref)
    requires IsValue(h, self, "integer") && IsValue(h, arg, "integer")
    requires Exact53(At(h, self).v) && Exact53(At(h, arg).v) && At(h, arg).v != 0
    ensures var a, b := At(h, self).v, At(h, arg).v;
            var q := Dispatch(h, self, "__quo__", [arg]);
            var m := Dispatch(h, self, "__rem__", [arg]);
            && q.Ok? && m.Ok?
            && At(q.value.heap, |h| + 1).Integer? && At(m.value.heap, |h| + 1).Integer?
            && var qv, mv := At(q.value.heap, |h| + 1).v, At(m.value.heap, |h| + 1).v;
            && a == b * qv + mv
            && Abs(mv) < Abs(b)
            && (mv == 0 || (mv < 0 <==> a < 0))
  {
    var a, b := At(h, self).v, At(h, arg).v;
    TruncDivRem(a, b);
    TruncRemInRange(a, b);
    assert Exact53(TruncDiv(a, b));
    assert IntBinop("__quo__", a, IntVal(b)) == Some(Ok(IntVal(TruncDiv(a, b))));
    assert IntBinop("__rem__", a, IntVal(b)) == Some(Ok(IntVal(TruncRem(a, b))));
  }

  /**
   * A message an integer does not compute answers with the argument's value:
   * an exactly representable integer, a float, or zero for any other value.
   */
  lemma UnknownMessageEchoesArgument(h: Heap, self: Ref, msg: string, arg: Ref)
    requires IsValue(h, self, "integer") && !IsArithMessage(msg)
    ensures var r := Dispatch(h, self, msg, [arg]);
            if IsValue(h, arg, "integer") then
              if Exact53(At(h, arg).v) then r == Ok(Fresh(h, Integer(At(h, arg).v)))
              else r == Err(OutsideExactFloatRange)
            else if IsValue(h, arg, "float") then r == Ok(Fresh(h, Float(At(h, arg).f)))
            else r == Ok(Fresh(h, Integer(0)))
  {
  }

  /** `__add__` on a string makes a new string with the argument's display form appended. */
  lemma StringConcat(h: Heap, self: Ref, arg: Ref)
    requires IsValue(h, self, "string") && Display(h, arg).Ok?
    ensures Dispatch(h, self, "__add__", [arg]) ==
              Ok(Fresh(h, Str(At(h, self).s + Display(h, arg).value)))
  {
  }

  /** Messages that read nothing back: sets, functions, and an array's `__add__`. */
  lemma SilentMessages(h: Heap, self: Ref, msg: string, args: seq<Ref>)
    requires IsValue(h, self, "set") || IsValue(h, self, "function")
             || (IsValue(h, self, "array") && msg !in {"__get_index__", "__set_index__"})
    ensures Dispatch(h, self, msg, args) == Ok(Outcome(h, []))
  {
  }

  /**
   * After `a[i] = v`, reading index i gives v, every other index reads as
   * before, and no other value in the heap changed.
   */
  lemma ArraySetThenGet(h: Heap, self: Ref, idx: Ref, v: Ref, j: Ref)
    requires IsValue(h, self, "array") && IsValue(h, idx, "integer")
    requires 0 <= At(h, idx).v < |At(h, self).vals|
    requires IsValue(h, j, "integer") && 0 <= At(h, j).v < |At(h, self).vals|
    ensures var s := Dispatch(h, self, "__set_index__", [idx, v]);
            && s.Ok? && s.value.results == []
            && (forall q :: Valid(h, q) && q != self ==> At(s.value.heap, q) == At(h, q))
            && var g := Dispatch(s.value.heap, self, "__get_index__", [j]);
            && g.Ok?
            && g.value.heap == s.value.heap
            && g.value.results ==
                 (if At(h, j).v == At(h, idx).v then [v] else Dispatch(h, self, "__get_index__", [j]).value.results)
  {
    var s := Dispatch(h, self, "__set_index__", [idx, v]);
    assert At(s.value.heap, self) == Array(At(h, self).vals[At(h, idx).v := v]);
    if j != self && j != idx {
      assert At(s.value.heap, j) == At(h, j);
    }
  }

  /** Indexing outside the element slice, or with a non-integer, fails. */
  lemma ArrayIndexFaults(h: Heap, self: Ref, idx: Ref)
    requires IsValue(h, self, "array")
    ensures !IsValue(h, idx, "integer") ==>
              Dispatch(h, self, "__get_index__", [idx]) == Err(TypeAssertion("integer"))
    ensures IsValue(h, idx, "integer") && !(0 <= At(h, idx).v < |At(h, self).vals|) ==>
              Dispatch(h, self, "__get_index__", [idx]) == Err(IndexOutOfRange)
    ensures Dispatch(h, self, "__get_index__", []) == Err(IndexOutOfRange)
  {
  }

  /** An integer displays in decimal, and the decimal form reads back as the same integer. */
  lemma IntegerDisplay(h: Heap, r: Ref)
    requires IsValue(h, r, "integer")
    ensures Display(h, r) == Ok(IntString(At(h, r).v))
    ensures Atoi(Display(h, r).value) == Some(At(h, r).v)
  {
    AtoiRoundTrip(At(h, r).v);
  }

  /**
   * An array's display form is `[`, its elements' display forms separated
   * by commas, then `]`; a set's starts with `#[` instead.
   */
  lemma AggregateDisplay(h: Heap, r: Ref)
    requires IsValue(h, r, "array") || IsValue(h, r, "set")
    requires forall i :: 0 <= i < |At(h, r).vals| ==> DisplayFuel(h, At(h, r).vals[i], |h|).Ok?
    ensures var vals := At(h, r).vals;
            var open := if At(h, r).Array? then "[" else "#[";
            Display(h, r) == Ok(ListDisplay(open, seq(|vals|, i requires 0 <= i < |vals| => DisplayFuel(h, vals[i], |h|).value)))
  {
    var vals := At(h, r).vals;
    var parts := seq(|vals|, i requires 0 <= i < |vals| => DisplayFuel(h, vals[i], |h|).value);
    DisplayAllOk(h, vals, |h|, parts);
  }

  lemma {:induction false} DisplayAllOk(h: Heap, rs: seq<Ref>, fuel: nat, parts: seq<string>)
    requires |parts| == |rs|
    requires forall i :: 0 <= i < |rs| ==> DisplayFuel(h, rs[i], fuel) == Ok(parts[i])
    ensures DisplayAll(h, rs, fuel) == Ok(parts)
  {
    if |rs| > 0 {
      DisplayAllOk(h, rs[1..], fuel, parts[1..]);
      assert parts == [parts[0]] + parts[1..];
    }
  }

  /** The elements are displayed in order and the first failure is reported. */
  lemma {:induction false} DisplayAllFirstError(h: Heap, rs: seq<Ref>, fuel: nat, i: nat, e: Fault)
    requires i < |rs| && DisplayFuel(h, rs[i], fuel) == Err(e)
    requires forall k :: 0 <= k < i ==> DisplayFuel(h, rs[k], fuel).Ok?
    ensures DisplayAll(h, rs, fuel) == Err(e)
  {
    if i > 0 {
      DisplayAllFirstError(h, rs[1..], fuel, i - 1, e);
    }
  }

  /** The display loop of comp/object.go agrees with the display form. */
  method ArrayString(h: Heap, r: Ref) returns (s: Result<string, Fault>)
    requires IsValue(h, r, "array")
    ensures s == Display(h, r)
  {
    var vals := At(h, r).vals;
    var parts: seq<string> := [];
    var i := 0;
    while i < |vals|
      invariant 0 <= i <= |vals|
      invariant |parts| == i
      invariant forall k :: 0 <= k < i ==> DisplayFuel(h, vals[k], |h|) == Ok(parts[k])
    {
      var d := DisplayFuel(h, vals[i], |h|);
      if d.Err? {
        DisplayAllFirstError(h, vals, |h|, i, d.error);
        return Err(d.error);
      }
      parts := parts + [d.value];
      i := i + 1;
    }
    DisplayAllOk(h, vals, |h|, parts);
    var text := Bracketed("[", parts);
    s := Ok(text);
  }
}
