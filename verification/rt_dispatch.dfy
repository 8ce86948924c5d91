/**
 * `Dispatch` of rt/object.go: every operation on a value is a message name
 * sent to it with a list of argument references.  The property messages are
 * tried first on every variant; an unrecognised message yields no results.
 */
module RtDispatch {
  import opened Wrappers
  import opened Faults
  import opened Ints
  import opened Strings
  import opened RtObjects

  /** The heap after the message, and the message's results. */
  datatype Outcome = Outcome(heap: Heap, results: seq<Ref>)

  const GetPropertyMsg: string := "__get_property__"
  const SetPropertyMsg: string := "__set_property__"
  const CallMsg: string := "__call__"

  /** The process-wide builtin registry. */
  const Builtins: set<string> := {"print"}

  /** The results of a registry builtin: `print` returns none. */
  function CallBuiltin(name: string, args: seq<Ref>): seq<Ref>
  {
    []
  }

  function NoResults(h: Heap): Result<Outcome, Fault> { Ok(Outcome(h, [])) }

  /** Allocates one result with a constructor. */
  function Fresh(res: (Heap, Ref)): Result<Outcome, Fault>
  {
    Ok(Outcome(res.0, [res.1]))
  }

  /** `args[i].(*StringObject).Val`. */
  function StringArg(h: Heap, r: Ref): Result<string, Fault>
  {
    if Valid(h, r) && At(h, r).StrObj? then Ok(At(h, r).s) else Err(TypeAssertion("string"))
  }

  /** `args[i].(*IntegerObject).Val`. */
  function IntArg(h: Heap, r: Ref): Result<Int64, Fault>
  {
    if Valid(h, r) && At(h, r).IntObj? then Ok(At(h, r).v) else Err(TypeAssertion("integer"))
  }

  /** The type switch on an integer operator's argument. */
  function AsOperand(h: Heap, r: Ref): Operand
  {
    if Valid(h, r) && At(h, r).IntObj? then IntVal(At(h, r).v)
    else if Valid(h, r) && At(h, r).FloatObj? then FloatVal(At(h, r).f)
    else IntVal(0)
  }

  /** `AccessPropMethod`: the two property messages, on any receiver. */
  function AccessProp(h: Heap, self: Ref, msg: string, args: seq<Ref>): Option<Result<Outcome, Fault>>
    requires Valid(h, self)
  {
    if msg == GetPropertyMsg then
      Some(if |args| == 0 then Err(IndexOutOfRange)
           else match StringArg(h, args[0])
             case Err(e) => Err(e)
             case Ok(key) => Ok(Outcome(h, [GetProp(At(h, self).props, key)])))
    else if msg == SetPropertyMsg then
      Some(if |args| == 0 then Err(IndexOutOfRange)
           else match StringArg(h, args[0])
             case Err(e) => Err(e)
             case Ok(key) =>
               if |args| < 2 then Err(IndexOutOfRange)
               else NoResults(Store(h, self, SetProp(At(h, self), key, args[1]))))
    else None
  }

  function Dispatch(h: Heap, self: Ref, msg: string, args: seq<Ref>): (r: Result<Outcome, Fault>)
    ensures r.Ok? ==> Extends(h, r.value.heap)
    decreases if msg == CallMsg then 1 else 0
  {
    if !Valid(h, self) then Err(NilDereference)
    else match AccessProp(h, self, msg, args)
      case Some(r) => r
      case None =>
        match At(h, self)
        case StrObj(_, _) => StrDispatch(h, self, msg, args)
        case BoolObj(_, _) => BoolDispatch(h, self, msg, args)
        case IntObj(_, _) => IntDispatch(h, self, msg, args)
        case FloatObj(_, _) =>
          if |args| == 0 then Err(IndexOutOfRange) else Err(Unmodelled("float arithmetic"))
        case ArrayObj(_, _) => ArrayDispatch(h, self, msg, args)
        case SetObj(_, _) => NoResults(h)
        case DictObj(_) => DictDispatch(h, self, msg, args)
        case FuncObj(_, name, decl, _, recv) =>
          if msg != CallMsg then NoResults(h)
          else if decl.None? && !Valid(h, recv) then
            Ok(Outcome(h, if name in Builtins then CallBuiltin(name, args) else []))
          else if !Valid(h, recv) then Err(NilDereference)
          else if name == CallMsg then Err(Unmodelled("re-dispatch of __call__"))
          else Dispatch(h, recv, name, args)
  }

  function StrDispatch(h: Heap, self: Ref, msg: string, args: seq<Ref>): Result<Outcome, Fault>
    requires Valid(h, self) && At(h, self).StrObj?
  {
    var o := At(h, self);
    if msg == "__add__" || msg == "__+=__" then
      if |args| == 0 then Err(IndexOutOfRange)
      else match Display(h, args[0])
        case Err(e) => Err(e)
        case Ok(d) =>
          if msg == "__add__" then Fresh(NewString(h, o.s + d))
          else NoResults(Store(h, self, o.(s := o.s + d)))
    else NoResults(h)
  }

  function BoolDispatch(h: Heap, self: Ref, msg: string, args: seq<Ref>): Result<Outcome, Fault>
    requires Valid(h, self) && At(h, self).BoolObj?
  {
    var mine := At(h, self).b;
    if |args| == 0 then Err(IndexOutOfRange)
    else if !(Valid(h, args[0]) && At(h, args[0]).BoolObj?) then Err(TypeAssertion("bool"))
    else
      var val := At(h, args[0]).b;
      Fresh(NewBool(h, if msg == "__land__" then mine && val
                       else if msg == "__lor__" then mine || val
                       else if msg == "__not__" then !mine
                       else val))
  }

  predicate IsCompoundMessage(msg: string)
  {
    msg in {"__+=__", "__-=__", "__*=__", "__/=__", "__%=__", "__|=__",
            "__&=__", "__^=__", "__<<=__", "__>>=__", "__&^___"}
  }

  /** The compound assignments: the receiver's new value, Go int arithmetic. */
  function IntCompound(msg: string, a: Int64, arg: Operand): (r: Option<Result<Int64, Fault>>)
    ensures r.Some? <==> IsCompoundMessage(msg)
  {
    if !IsCompoundMessage(msg) then None
    else if msg == "__<<=__" || msg == "__>>=__" then
      Some(match ShiftCount(arg)
           case Err(e) => Err(e)
           case Ok(c) => Ok(if msg == "__<<=__" then Shl64(a, c) else Shr64(a, c)))
    else
      Some(match IntOfOperand(arg)
           case Err(e) => Err(e)
           case Ok(n) =>
             if msg == "__+=__" then Ok(Wrap64(a + n))
             else if msg == "__-=__" then Ok(Wrap64(a - n))
             else if msg == "__*=__" then Ok(Wrap64(a * n))
             else if msg == "__/=__" then
               (if n == 0 then Err(DivideByZero) else Ok(Wrap64(TruncDiv(a, n))))
             else if msg == "__%=__" then
               (if n == 0 then Err(DivideByZero) else TruncRemInRange(a, n); Ok(TruncRem(a, n)))
             else if msg == "__|=__" then Ok(Or64(a, n))
             else if msg == "__&=__" then Ok(And64(a, n))
             else if msg == "__^=__" then Ok(Xor64(a, n))
             else Ok(AndNot64(a, n)))
  }

  predicate IsCompareMessage(msg: string)
  {
    msg in {"__eql__", "__lss__", "__gtr__", "__leq__", "__geq__", "__neq__"}
  }

  function Compare(msg: string, x: real, y: real): bool
  {
    if msg == "__eql__" then x == y
    else if msg == "__lss__" then x < y
    else if msg == "__gtr__" then x > y
    else if msg == "__leq__" then x <= y
    else if msg == "__geq__" then x >= y
    else x != y
  }

  /** The comparisons, made on float64 values: exact within 2^53. */
  function IntCompare(msg: string, a: Int64, arg: Operand): (r: Option<Result<bool, Fault>>)
    ensures r.Some? <==> IsCompareMessage(msg)
  {
    if !IsCompareMessage(msg) then None
    else if !Exact53(a) then Some(Err(OutsideExactFloatRange))
    else match arg
      case IntVal(b) =>
        Some(if Exact53(b) then Ok(Compare(msg, a as real, b as real)) else Err(OutsideExactFloatRange))
      case FloatVal(f) => Some(Ok(Compare(msg, a as real, f)))
  }

  /** `classMethods`: `times` (not modelled) and `abs`. */
  function ClassMethods(h: Heap, self: Ref, msg: string, args: seq<Ref>): Result<Outcome, Fault>
    requires Valid(h, self) && At(h, self).IntObj?
  {
    if msg == "times" then
      if |args| == 0 then Err(IndexOutOfRange)
      else if !(Valid(h, args[0]) && At(h, args[0]).FuncObj?) then Err(TypeAssertion("function"))
      else Err(Unmodelled("times re-enters the evaluator"))
    else if msg == "abs" then
      var v := At(h, self).v;
      Fresh(NewInteger(h, if v < 0 then Wrap64(0 - v) else v))
    else NoResults(h)
  }

  function IntDispatch(h: Heap, self: Ref, msg: string, args: seq<Ref>): Result<Outcome, Fault>
    requires Valid(h, self) && At(h, self).IntObj?
  {
    var o := At(h, self);
    if |args| == 0 then
      if msg == "__inc__" then NoResults(Store(h, self, o.(v := Wrap64(o.v + 1))))
      else if msg == "__dec__" then NoResults(Store(h, self, o.(v := Wrap64(o.v - 1))))
      else ClassMethods(h, self, msg, args)
    else
      var arg := AsOperand(h, args[0]);
      match IntCompound(msg, o.v, arg)
      case Some(Err(e)) => Err(e)
      case Some(Ok(n)) => NoResults(Store(h, self, o.(v := n)))
      case None =>
        match IntBinop(msg, o.v, arg)
        case Some(Err(e)) => Err(e)
        case Some(Ok(IntVal(n))) => Fresh(NewInteger(h, n))
        case Some(Ok(FloatVal(f))) => Fresh(NewFloat(h, f))
        case None =>
          match IntCompare(msg, o.v, arg)
          case Some(Err(e)) => Err(e)
          case Some(Ok(c)) => Fresh(NewBool(h, c))
          case None => ClassMethods(h, self, msg, args)
  }

  function ArrayDispatch(h: Heap, self: Ref, msg: string, args: seq<Ref>): Result<Outcome, Fault>
    requires Valid(h, self) && At(h, self).ArrayObj?
  {
    var o := At(h, self);
    if msg == "__add__" || msg == "__+=__" then
      if |args| == 0 then Err(IndexOutOfRange)
      else if !(Valid(h, args[0]) && At(h, args[0]).ArrayObj?) then Err(TypeAssertion("array"))
      else if msg == "__add__" then Fresh(NewArray(h, o.vals + At(h, args[0]).vals))
      else NoResults(Store(h, self, o.(vals := o.vals + At(h, args[0]).vals)))
    else if msg == "__get_index__" then
      if |args| == 0 then Err(IndexOutOfRange)
      else match IntArg(h, args[0])
        case Err(e) => Err(e)
        case Ok(i) => if 0 <= i < |o.vals| then Ok(Outcome(h, [o.vals[i]])) else Err(IndexOutOfRange)
    else if msg == "__set_index__" then
      if |args| == 0 then Err(IndexOutOfRange)
      else match IntArg(h, args[0])
        case Err(e) => Err(e)
        case Ok(i) =>
          if |args| < 2 || !(0 <= i < |o.vals|) then Err(IndexOutOfRange)
          else NoResults(Store(h, self, o.(vals := o.vals[i := args[1]])))
    else if msg == "__slice__" then
      if |args| == 0 then Err(IndexOutOfRange)
      else match SliceBound(h, args[0], 0)
        case Err(e) => Err(e)
        case Ok(low) =>
          if |args| < 2 then Err(IndexOutOfRange)
          else match SliceBound(h, args[1], |o.vals|)
            case Err(e) => Err(e)
            case Ok(high) =>
              if 0 <= low <= high <= |o.vals| then Fresh(NewArray(h, o.vals[low..high]))
              else Err(SliceBounds)
    else if msg == "append" then
      if |args| == 0 then Err(IndexOutOfRange)
      else NoResults(Store(h, self, o.(vals := o.vals + [args[0]])))
    else if msg == "length" then
      if InInt64(|o.vals|) then Fresh(NewInteger(h, |o.vals|))
      else Err(Unmodelled("array longer than MaxInt64"))
    else NoResults(h)
  }

  /** A slice bound: nil means the default, otherwise an integer. */
  function SliceBound(h: Heap, r: Ref, default: int): Result<int, Fault>
  {
    if !Valid(h, r) then Ok(default)
    else match IntArg(h, r)
      case Err(e) => Err(e)
      case Ok(i) => Ok(i)
  }

  function DictDispatch(h: Heap, self: Ref, msg: string, args: seq<Ref>): Result<Outcome, Fault>
    requires Valid(h, self) && At(h, self).DictObj?
  {
    var o := At(h, self);
    if msg == "__get_index__" || msg == "__set_index__" then
      if |args| == 0 then Err(IndexOutOfRange)
      else match HashCode(h, args[0])
        case Err(e) => Err(e)
        case Ok(key) =>
          if msg == "__get_index__" then Ok(Outcome(h, [GetProp(o.props, key)]))
          else if |args| < 2 then Err(IndexOutOfRange)
          else NoResults(Store(h, self, SetProp(o, key, args[1])))
    else NoResults(h)
  }
}
