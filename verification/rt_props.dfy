/** Properties of the rt value model's dispatch protocol. */
module RtProps {
  import opened Wrappers
  import opened Faults
  import opened Ints
  import opened Strings
  import opened RtObjects
  import opened RtDispatch

  predicate IsString(h: Heap, r: Ref, s: string) { Valid(h, r) && At(h, r) == StrObj(At(h, r).props, s) }
  predicate IsInt(h: Heap, r: Ref) { Valid(h, r) && At(h, r).IntObj? }
  predicate IsArray(h: Heap, r: Ref) { Valid(h, r) && At(h, r).ArrayObj? }

  /**
   * Property messages come first on every variant: reading a property gives
   * the table entry, or nil when the key is absent, and changes nothing.
   */
  lemma GetPropertyOnAnyValue(h: Heap, self: Ref, k: Ref, key: string)
    requires Valid(h, self) && IsString(h, k, key)
    ensures Dispatch(h, self, GetPropertyMsg, [k])
         == Ok(Outcome(h, [if key in At(h, self).props then At(h, self).props[key] else Nil]))
  {
  }

  /**
   * Setting a property returns no results; reading it back gives the value
   * stored, every other key of the table and every other object unchanged.
   */
  lemma SetThenGetProperty(h: Heap, self: Ref, k: Ref, key: string, v: Ref)
    requires Valid(h, self) && IsString(h, k, key)
    ensures var r := Dispatch(h, self, SetPropertyMsg, [k, v]);
            && r.Ok? && r.value.results == []
            && Dispatch(r.value.heap, self, GetPropertyMsg, [k]) == Ok(Outcome(r.value.heap, [v]))
            && SameKind(At(h, self), At(r.value.heap, self))
            && (forall key' :: key' != key ==>
                  GetProp(At(r.value.heap, self).props, key') == GetProp(At(h, self).props, key'))
            && (forall q :: Valid(h, q) && q != self ==> At(r.value.heap, q) == At(h, q))
  {
    var h' := Store(h, self, SetProp(At(h, self), key, v));
    assert Dispatch(h, self, SetPropertyMsg, [k, v]) == Ok(Outcome(h', []));
    if k == self {
      assert At(h', k).s == key;
    }
    assert IsString(h', k, key);
  }

  /** Sum, difference and product of two integers are exact inside 2^53. */
  lemma IntAddSubMul(h: Heap, self: Ref, arg: Ref, msg: string)
    requires IsInt(h, self) && IsInt(h, arg)
    requires msg in {"__add__", "__sub__", "__mul__"}
    requires var a, b := At(h, self).v, At(h, arg).v;
             Exact53(a) && Exact53(b)
             && Exact53(if msg == "__add__" then a + b else if msg == "__sub__" then a - b else a * b)
    ensures var a, b := At(h, self).v, At(h, arg).v;
            var r := Dispatch(h, self, msg, [arg]);
            && r.Ok? && |r.value.results| == 1
            && var n := r.value.results[0];
            && !Valid(h, n) && IsInt(r.value.heap, n)
            && At(r.value.heap, n).v == (if msg == "__add__" then a + b
                                         else if msg == "__sub__" then a - b else a * b)
            && At(r.value.heap, self) == At(h, self)
  {
  }

  /** An integer operator message with an integer answer allocates that answer. */
  lemma IntBinopDispatch(h: Heap, self: Ref, arg: Ref, msg: string, n: Int64)
    requires IsInt(h, self) && IsInt(h, arg)
    requires msg != GetPropertyMsg && msg != SetPropertyMsg
    requires IntCompound(msg, At(h, self).v, IntVal(At(h, arg).v)).None?
    requires IntBinop(msg, At(h, self).v, IntVal(At(h, arg).v)) == Some(Ok(IntVal(n)))
    ensures Dispatch(h, self, msg, [arg]) == Fresh(NewInteger(h, n))
  {
    assert AsOperand(h, arg) == IntVal(At(h, arg).v);
  }

  /** `__quo__` truncates toward zero; a zero divisor is an error. */
  lemma IntQuo(h: Heap, self: Ref, arg: Ref)
    requires IsInt(h, self) && IsInt(h, arg)
    requires Exact53(At(h, self).v) && Exact53(At(h, arg).v)
    ensures var a, b := At(h, self).v, At(h, arg).v;
            b == 0 ==> Dispatch(h, self, "__quo__", [arg]) == Err(DivideByZero)
    ensures var a, b := At(h, self).v, At(h, arg).v;
            b != 0 ==> InInt64(TruncDiv(a, b)) && Dispatch(h, self, "__quo__", [arg]) == Fresh(NewInteger(h, TruncDiv(a, b)))
  {
    var a, b := At(h, self).v, At(h, arg).v;
    if b != 0 {
      TruncDivRem(a, b);
      assert IntBinop("__quo__", a, IntVal(b)) == Some(Ok(IntVal(TruncDiv(a, b))));
      IntBinopDispatch(h, self, arg, "__quo__", TruncDiv(a, b));
    }
  }

  /** `__rem__` keeps the sign of the dividend; a zero divisor is an error. */
  lemma IntRem(h: Heap, self: Ref, arg: Ref)
    requires IsInt(h, self) && IsInt(h, arg)
    requires Exact53(At(h, self).v) && Exact53(At(h, arg).v)
    ensures var a, b := At(h, self).v, At(h, arg).v;
            b == 0 ==> Dispatch(h, self, "__rem__", [arg]) == Err(DivideByZero)
    ensures var a, b := At(h, self).v, At(h, arg).v;
            b != 0 ==> InInt64(TruncRem(a, b)) && Dispatch(h, self, "__rem__", [arg]) == Fresh(NewInteger(h, TruncRem(a, b)))
  {
    var a, b := At(h, self).v, At(h, arg).v;
    if b != 0 {
      TruncRemInRange(a, b);
      assert IntBinop("__rem__", a, IntVal(b)) == Some(Ok(IntVal(TruncRem(a, b))));
      IntBinopDispatch(h, self, arg, "__rem__", TruncRem(a, b));
    }
  }

  /**
   * Quotient and remainder truncate toward zero: they satisfy Go's division
   * identity, with the remainder smaller than the divisor and of the sign
   * of the dividend; a zero divisor is an error.
   */
  lemma IntQuoRem(h: Heap, self: Ref, arg: Ref)
    requires IsInt(h, self) && IsInt(h, arg)
    requires Exact53(At(h, self).v) && Exact53(At(h, arg).v)
    ensures var a, b := At(h, self).v, At(h, arg).v;
            var q := Dispatch(h, self, "__quo__", [arg]);
            var m := Dispatch(h, self, "__rem__", [arg]);
            if b == 0 then q == Err(DivideByZero) && m == Err(DivideByZero)
            else
              && q.Ok? && |q.value.results| == 1 && IsInt(q.value.heap, q.value.results[0])
              && m.Ok? && |m.value.results| == 1 && IsInt(m.value.heap, m.value.results[0])
              && var qv, mv := At(q.value.heap, q.value.results[0]).v, At(m.value.heap, m.value.results[0]).v;
              && a == b * qv + mv
              && Abs(mv) < Abs(b)
              && (mv == 0 || (mv < 0 <==> a < 0))
  {
    var a, b := At(h, self).v, At(h, arg).v;
    IntQuo(h, self, arg);
    IntRem(h, self, arg);
    if b != 0 {
      TruncDivRem(a, b);
    }
  }

  /** A comparison message on two exact integers allocates the float64 comparison's answer. */
  lemma IntCompareDispatch(h: Heap, self: Ref, arg: Ref, msg: string)
    requires IsInt(h, self) && IsInt(h, arg)
    requires Exact53(At(h, self).v) && Exact53(At(h, arg).v)
    requires IsCompareMessage(msg)
    ensures Dispatch(h, self, msg, [arg]) == Fresh(NewBool(h, Compare(msg, At(h, self).v as real, At(h, arg).v as real)))
  {
    var a, b := At(h, self).v, At(h, arg).v;
    assert AsOperand(h, arg) == IntVal(b);
    assert IntCompound(msg, a, IntVal(b)).None?;
    assert IntBinop(msg, a, IntVal(b)).None?;
  }

  /** The six comparisons agree with the mathematical order inside 2^53. */
  lemma IntComparisons(h: Heap, self: Ref, arg: Ref, msg: string)
    requires IsInt(h, self) && IsInt(h, arg)
    requires Exact53(At(h, self).v) && Exact53(At(h, arg).v)
    requires IsCompareMessage(msg)
    ensures var a, b := At(h, self).v, At(h, arg).v;
            var r := Dispatch(h, self, msg, [arg]);
            && r.Ok? && |r.value.results| == 1
            && var c := r.value.results[0];
            && Valid(r.value.heap, c) && At(r.value.heap, c).BoolObj?
            && var t := At(r.value.heap, c).b;
            && (msg == "__eql__" ==> (t <==> a == b))
            && (msg == "__neq__" ==> (t <==> a != b))
            && (msg == "__lss__" ==> (t <==> a < b))
            && (msg == "__gtr__" ==> (t <==> a > b))
            && (msg == "__leq__" ==> (t <==> a <= b))
            && (msg == "__geq__" ==> (t <==> a >= b))
  {
    IntCompareDispatch(h, self, arg, msg);
  }

  /**
   * `++` and `--` change the receiver in place by one (wrapping at the ends
   * of the int range), return nothing, and touch no other object; every
   * holder of the reference sees the new value.
   */
  lemma IncDecInPlace(h: Heap, self: Ref, inc: bool)
    requires IsInt(h, self)
    ensures var a := At(h, self).v;
            var r := Dispatch(h, self, if inc then "__inc__" else "__dec__", []);
            && r.Ok? && r.value.results == []
            && IsInt(r.value.heap, self)
            && At(r.value.heap, self).props == At(h, self).props
            && At(r.value.heap, self).v == Wrap64(if inc then a + 1 else a - 1)
            && (inc && a < MaxInt64 ==> At(r.value.heap, self).v == a + 1)
            && (!inc && a > MinInt64 ==> At(r.value.heap, self).v == a - 1)
            && (inc && a == MaxInt64 ==> At(r.value.heap, self).v == MinInt64)
            && |r.value.heap| == |h|
            && (forall q :: Valid(h, q) && q != self ==> At(r.value.heap, q) == At(h, q))
  {
  }

  /**
   * Every compound assignment updates the receiver in place with the Go
   * int result, returns nothing, and touches no other object.
   */
  lemma CompoundAssignInPlace(h: Heap, self: Ref, arg: Ref, msg: string)
    requires IsInt(h, self) && IsInt(h, arg) && Exact53(At(h, arg).v)
    requires IsCompoundMessage(msg) && msg != "__<<=__" && msg != "__>>=__"
    requires msg in {"__/=__", "__%=__"} ==> At(h, arg).v != 0
    ensures var a, b := At(h, self).v, At(h, arg).v;
            var r := Dispatch(h, self, msg, [arg]);
            && r.Ok? && r.value.results == []
            && IsInt(r.value.heap, self)
            && var n := At(r.value.heap, self).v;
            && (msg == "__+=__" ==> n == Wrap64(a + b))
            && (msg == "__-=__" ==> n == Wrap64(a - b))
            && (msg == "__*=__" ==> n == Wrap64(a * b))
            && (msg == "__/=__" ==> n == Wrap64(TruncDiv(a, b)))
            && (msg == "__%=__" ==> n == TruncRem(a, b))
            && (msg == "__&=__" ==> n == And64(a, b))
            && (msg == "__|=__" ==> n == Or64(a, b))
            && (msg == "__^=__" ==> n == Xor64(a, b))
            && |r.value.heap| == |h|
            && (forall q :: Valid(h, q) && q != self ==> At(r.value.heap, q) == At(h, q))
  {
  }

  /** A shift-assign by an in-range count shifts the receiver in place. */
  lemma ShiftAssignInPlace(h: Heap, self: Ref, arg: Ref, left: bool)
    requires IsInt(h, self) && IsInt(h, arg) && 0 <= At(h, arg).v < 64
    ensures var a, c := At(h, self).v, At(h, arg).v;
            var r := Dispatch(h, self, if left then "__<<=__" else "__>>=__", [arg]);
            && r.Ok? && r.value.results == [] && IsInt(r.value.heap, self)
            && At(r.value.heap, self).v == (if left then Wrap64(a * Pow2(c)) else Wrap64(a / Pow2(c)))
  {
  }

  /**
   * The evaluator sends `__&^=__` for `&^=`, but the integer receiver only
   * knows `__&^___`: the message falls through to the class methods, yields
   * nothing and leaves the receiver as it was.  `__and_not__` has no integer
   * case either.
   */
  lemma AndNotIsUnhandled(h: Heap, self: Ref, args: seq<Ref>)
    requires IsInt(h, self) && |args| > 0
    ensures Dispatch(h, self, "__&^=__", args) == Ok(Outcome(h, []))
    ensures Dispatch(h, self, "__and_not__", args) == Ok(Outcome(h, []))
  {
  }

  /** The spelling the integer does know does clear the argument's bits. */
  lemma AndNotUnderItsOwnName(h: Heap, self: Ref, arg: Ref)
    requires IsInt(h, self) && IsInt(h, arg) && Exact53(At(h, arg).v)
    ensures var r := Dispatch(h, self, "__&^___", [arg]);
            r.Ok? && IsInt(r.value.heap, self)
            && At(r.value.heap, self).v == AndNot64(At(h, self).v, At(h, arg).v)
  {
  }

  /**
   * `abs` returns a fresh integer equal to |v| and leaves the receiver
   * alone; the negation wraps for the least int, whose abs stays negative.
   */
  lemma AbsIsFresh(h: Heap, self: Ref)
    requires IsInt(h, self)
    ensures var v := At(h, self).v;
            var r := Dispatch(h, self, "abs", []);
            && r.Ok? && |r.value.results| == 1
            && var n := r.value.results[0];
            && !Valid(h, n) && IsInt(r.value.heap, n)
            && At(r.value.heap, self) == At(h, self)
            && (v != MinInt64 ==> At(r.value.heap, n).v == Abs(v) && At(r.value.heap, n).v >= 0)
            && (v == MinInt64 ==> At(r.value.heap, n).v == MinInt64)
  {
  }

  /** `append` grows the array by the argument, in place. */
  lemma AppendInPlace(h: Heap, self: Ref, x: Ref)
    requires IsArray(h, self)
    ensures var vals := At(h, self).vals;
            var r := Dispatch(h, self, "append", [x]);
            && r.Ok? && r.value.results == [] && IsArray(r.value.heap, self)
            && var vals' := At(r.value.heap, self).vals;
            && |vals'| == |vals| + 1 && vals'[|vals|] == x && vals'[..|vals|] == vals
            && (forall q :: Valid(h, q) && q != self ==> At(r.value.heap, q) == At(h, q))
  {
  }

  /** `length` returns a fresh integer holding the element count. */
  lemma LengthCounts(h: Heap, self: Ref)
    requires IsArray(h, self) && |At(h, self).vals| <= MaxInt64
    ensures var r := Dispatch(h, self, "length", []);
            && r.Ok? && |r.value.results| == 1
            && IsInt(r.value.heap, r.value.results[0])
            && At(r.value.heap, r.value.results[0]).v == |At(h, self).vals|
  {
  }

  /**
   * A bound built-in method, called, is the same message sent to its
   * receiver under the method's name.
   */
  lemma BoundCallRedispatches(h: Heap, f: Ref, args: seq<Ref>)
    requires Valid(h, f) && At(h, f).FuncObj?
    requires Valid(h, At(h, f).recv) && At(h, f).name != CallMsg
    ensures Dispatch(h, f, CallMsg, args) == Dispatch(h, At(h, f).recv, At(h, f).name, args)
  {
  }

  /**
   * A fresh array carries `append` and `length`; calling the first appends
   * to it and calling the second counts it.
   */
  lemma FreshArrayMethods(h: Heap, vals: seq<Ref>, x: Ref)
    requires |vals| < MaxInt64
    ensures var (h1, a) := NewArray(h, vals);
            && "append" in At(h1, a).props && "length" in At(h1, a).props
            && var ap := At(h1, a).props["append"];
            && var r := Dispatch(h1, ap, CallMsg, [x]);
            && r.Ok? && r.value.results == [] && IsArray(r.value.heap, a)
            && At(r.value.heap, a).vals == vals + [x]
            && var ln := At(r.value.heap, a).props["length"];
            && var l := Dispatch(r.value.heap, ln, CallMsg, []);
            && l.Ok? && |l.value.results| == 1 && IsInt(l.value.heap, l.value.results[0])
            && At(l.value.heap, l.value.results[0]).v == |vals| + 1
  {
    var (h1, a) := NewArray(h, vals);
    var ap := At(h1, a).props["append"];
    BoundCallRedispatches(h1, ap, [x]);
    var r := Dispatch(h1, ap, CallMsg, [x]);
    AppendInPlace(h1, a, x);
    var h2 := r.value.heap;
    assert At(h2, a).props == At(h1, a).props;
    var ln := At(h2, a).props["length"];
    assert At(h2, ln) == BoundMethod("length", a);
    BoundCallRedispatches(h2, ln, []);
  }

  /**
   * Index assignment on an array is in place: reading the index back gives
   * the value stored, every other position is unchanged, and an index
   * outside 0..len-1 is an error.
   */
  lemma ArraySetThenGet(h: Heap, self: Ref, idx: Ref, v: Ref, j: int)
    requires IsArray(h, self) && IsInt(h, idx) && idx != self
    ensures var vals, i := At(h, self).vals, At(h, idx).v;
            var r := Dispatch(h, self, "__set_index__", [idx, v]);
            if 0 <= i < |vals| then
              && r.Ok? && r.value.results == []
              && Dispatch(r.value.heap, self, "__get_index__", [idx]) == Ok(Outcome(r.value.heap, [v]))
              && IsArray(r.value.heap, self)
              && |At(r.value.heap, self).vals| == |vals|
              && (0 <= j < |vals| && j != i ==> At(r.value.heap, self).vals[j] == vals[j])
            else r == Err(IndexOutOfRange)
  {
  }

  /**
   * Slicing returns a fresh array of the elements [low, high); a nil bound
   * defaults to 0 below and to the length above.
   */
  lemma SliceDefaults(h: Heap, self: Ref, lo: Ref, hi: Ref)
    requires IsArray(h, self)
    requires !Valid(h, lo) || IsInt(h, lo)
    requires !Valid(h, hi) || IsInt(h, hi)
    ensures var vals := At(h, self).vals;
            var low := if Valid(h, lo) then At(h, lo).v as int else 0;
            var high := if Valid(h, hi) then At(h, hi).v as int else |vals|;
            var r := Dispatch(h, self, "__slice__", [lo, hi]);
            if 0 <= low <= high <= |vals| then
              && r.Ok? && |r.value.results| == 1
              && var n := r.value.results[0];
              && !Valid(h, n) && IsArray(r.value.heap, n)
              && At(r.value.heap, n).vals == vals[low..high]
              && At(r.value.heap, self) == At(h, self)
            else r == Err(SliceBounds)
  {
  }

  /** `+` on arrays is a fresh concatenation; neither operand changes. */
  lemma ArrayConcat(h: Heap, self: Ref, other: Ref)
    requires IsArray(h, self) && IsArray(h, other)
    ensures var r := Dispatch(h, self, "__add__", [other]);
            && r.Ok? && |r.value.results| == 1
            && var n := r.value.results[0];
            && !Valid(h, n) && IsArray(r.value.heap, n)
            && At(r.value.heap, n).vals == At(h, self).vals + At(h, other).vals
            && At(r.value.heap, self) == At(h, self) && At(r.value.heap, other) == At(h, other)
  {
  }

  /** String `+` is a fresh string: the receiver's text then the argument's display form. */
  lemma StringConcat(h: Heap, self: Ref, arg: Ref, d: string)
    requires Valid(h, self) && At(h, self).StrObj?
    requires Display(h, arg) == Ok(d)
    ensures var r := Dispatch(h, self, "__add__", [arg]);
            && r.Ok? && |r.value.results| == 1
            && var n := r.value.results[0];
            && !Valid(h, n) && Valid(r.value.heap, n) && At(r.value.heap, n).StrObj?
            && At(r.value.heap, n).s == At(h, self).s + d
            && At(r.value.heap, self) == At(h, self)
  {
  }

  /**
   * Dict entries live in the property table under the key's hash code, so a
   * string index and a selector of the same name reach the same entry.
   */
  lemma DictIndexIsProperty(h: Heap, d: Ref, k: Ref, key: string)
    requires Valid(h, d) && At(h, d).DictObj? && IsString(h, k, key)
    ensures Dispatch(h, d, "__get_index__", [k]) == Dispatch(h, d, GetPropertyMsg, [k])
  {
  }

  /** The integer 1 and the string "1" are the same dict key. */
  lemma DictIntStringKeysCollide(h: Heap, d: Ref, i: Ref, k: Ref)
    requires Valid(h, d) && At(h, d).DictObj? && IsInt(h, i)
    requires IsString(h, k, IntString(At(h, i).v))
    ensures Dispatch(h, d, "__get_index__", [i]) == Dispatch(h, d, "__get_index__", [k])
  {
  }

  /** Distinct integers are distinct dict keys. */
  lemma DictIntKeysDistinct(h: Heap, i: Ref, j: Ref)
    requires IsInt(h, i) && IsInt(h, j) && At(h, i).v != At(h, j).v
    ensures HashCode(h, i) != HashCode(h, j)
  {
    IntStringInjective(At(h, i).v, At(h, j).v);
  }

  /** Dict index assignment then index read gives the value stored. */
  lemma DictSetThenGet(h: Heap, d: Ref, k: Ref, v: Ref)
    requires Valid(h, d) && At(h, d).DictObj? && Valid(h, k)
    requires !At(h, k).FloatObj?
    ensures var r := Dispatch(h, d, "__set_index__", [k, v]);
            && r.Ok? && r.value.results == []
            && Dispatch(r.value.heap, d, "__get_index__", [k]) == Ok(Outcome(r.value.heap, [v]))
  {
    var key := HashCode(h, k).value;
    var h' := Store(h, d, SetProp(At(h, d), key, v));
    assert HashCode(h', k) == HashCode(h, k);
  }

  /** An unknown message is a silent miss: no results, nothing changes. */
  lemma UnknownMessageOnFunction(h: Heap, f: Ref, msg: string, args: seq<Ref>)
    requires Valid(h, f) && At(h, f).FuncObj?
    requires msg != CallMsg && msg != GetPropertyMsg && msg != SetPropertyMsg
    ensures Dispatch(h, f, msg, args) == Ok(Outcome(h, []))
  {
  }

  /** Arrays display as `[` + the elements' forms joined by commas + `]`. */
  lemma ArrayDisplay(h: Heap, a: Ref, parts: seq<string>)
    requires IsArray(h, a) && |parts| == |At(h, a).vals|
    requires forall i :: 0 <= i < |parts| ==> DisplayFuel(h, At(h, a).vals[i], |h|) == Ok(parts[i])
    ensures Display(h, a) == Ok("[" + Join(parts, ",") + "]")
  {
    DisplayAllOk(h, At(h, a).vals, |h|, parts);
  }

  lemma {:induction false} DisplayAllOk(h: Heap, rs: seq<Ref>, fuel: nat, parts: seq<string>)
    requires |parts| == |rs|
    requires forall i :: 0 <= i < |rs| ==> DisplayFuel(h, rs[i], fuel) == Ok(parts[i])
    ensures DisplayAll(h, rs, fuel) == Ok(parts)
  {
    if |rs| > 0 {
      DisplayAllOk(h, rs[1..], fuel, parts[1..]);
      assert parts == [parts[0]] + parts[1..];
    }
  }
}
