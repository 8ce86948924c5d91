/**
 * Properties of the evaluator: how assignment chooses the frame it writes,
 * how blocks scope their names, how the control flags stop statement lists
 * and loops, and what the operator table makes of the integer messages.
 */
module EvalProps {
  import opened Wrappers
  import opened Faults
  import opened Ints
  import opened Ast
  import opened RtObjects
  import opened RtDispatch
  import opened RtProps
  import opened Env
  import opened OperandStack
  import opened Eval

  // Assignment to a name.

  /** After `name = v`, the name reads back as v, whichever frame was written. */
  lemma AssignIdentReadBack(st: State, name: string, v: Ref)
    requires |st.env| > 0
    ensures AssignIdent(st, name, v).Ok?
    ensures LookUp(AssignIdent(st, name, v).value.env, name).val == v
  {
    var f := LookUp(st.env, name);
    var e := AssignIdent(st, name, v).value.env;
    if f.owner >= 0 && e == PutAt(st.env, f.owner, name, v) {
      assert forall i :: f.owner < i < |e| ==> e[i] == st.env[i];
    }
  }

  /**
   * Assignment writes exactly one frame, and binds the name there: the
   * current frame, or the frame that already binds it.
   */
  lemma AssignIdentWritesOneFrame(st: State, name: string, v: Ref)
    requires |st.env| > 0
    ensures var e := AssignIdent(st, name, v).value.env;
            var k := LookUp(st.env, name).owner;
            || e == Put(st.env, name, v)
            || (0 <= k && e == PutAt(st.env, k, name, v))
  {
  }

  /**
   * Inside a function that declares the name local, assignment never writes
   * an outer frame: a binding found outside is shadowed, not overwritten.
   */
  lemma LocalNameShadows(st: State, name: string, v: Ref)
    requires |st.env| > 0
    requires st.fun.Some? && name in st.fun.value.localNames
    ensures var e := AssignIdent(st, name, v).value.env;
            && |e| == |st.env|
            && (forall i :: 0 <= i < |st.env| - 1 ==> e[i] == st.env[i])
            && e[|st.env| - 1] == st.env[|st.env| - 1][name := v]
  {
    var f := LookUp(st.env, name);
    if Valid(st.heap, f.val) && f.owner != |st.env| - 1 {
      assert ContainsString(st.fun.value.localNames, name);
    }
  }

  /**
   * A name that is bound and not a local of the running function is updated
   * in the frame that owns it, which is how a closure writes through to a
   * variable of an enclosing scope; no frame gains a name.
   */
  lemma NonLocalWritesThrough(st: State, name: string, v: Ref)
    requires |st.env| > 0
    requires Valid(st.heap, LookUp(st.env, name).val)
    requires st.fun.None? || name !in st.fun.value.localNames
    ensures var k := LookUp(st.env, name).owner;
            var e := AssignIdent(st, name, v).value.env;
            && 0 <= k && e == PutAt(st.env, k, name, v)
            && (forall i :: 0 <= i < |st.env| ==> e[i].Keys == st.env[i].Keys)
  {
    var f := LookUp(st.env, name);
    if st.fun.Some? {
      assert !ContainsString(st.fun.value.localNames, name);
    }
    var e := AssignIdent(st, name, v).value.env;
    assert e == PutAt(st.env, f.owner, name, v);
    forall i | 0 <= i < |st.env|
      ensures e[i].Keys == st.env[i].Keys
    {
      if i == f.owner {
        assert name in st.env[i];
      }
    }
  }

  /** A name unbound before a block that binds it is unbound again after the block. */
  lemma BlockForgetsItsNames(st: State, list: seq<Stmt>, fuel: nat, name: string)
    requires ExecBlock(st, list, fuel).Ok?
    requires LookUp(st.env, name).owner == -1
    ensures LookUp(ExecBlock(st, list, fuel).value.env, name).owner == -1
  {
  }

  // Control flags.

  /**
   * A pending return stops every statement list; a pending break or
   * continue stops it only inside a loop.
   */
  lemma PendingFlagStopsList(st: State, list: seq<Stmt>, fuel: nat)
    requires st.needReturn || (st.loopDepth > 0 && (st.needBreak || st.needContinue))
    ensures ExecList(st, list, fuel) == Ok(st)
  {
  }

  /**
   * Outside any loop a break only raises the flag: the statements after it
   * still run.
   */
  lemma BreakOutsideLoopRunsOn(st: State, rest: seq<Stmt>, fuel: nat)
    requires st.loopDepth == 0 && !st.needReturn && fuel > 0
    ensures ExecList(st, [Branch(Break)] + rest, fuel)
         == ExecList(st.(needBreak := true), rest, fuel)
  {
    assert ([Branch(Break)] + rest)[1..] == rest;
  }

  /** Inside a loop, the statements after a break are skipped. */
  lemma BreakInsideLoopSkipsRest(st: State, rest: seq<Stmt>, fuel: nat)
    requires st.loopDepth > 0 && !st.needReturn && !st.needBreak && !st.needContinue && fuel > 0
    ensures ExecList(st, [Branch(Break)] + rest, fuel) == Ok(st.(needBreak := true))
  {
    assert ([Branch(Break)] + rest)[1..] == rest;
  }

  /**
   * One turn of a for loop whose body leaves a break pending: the loop ends
   * there with the break consumed; neither the post statement nor another
   * test runs.
   */
  lemma ForBreakEndsLoop(st: State, cond: Expr, post: Option<Stmt>, body: seq<Stmt>, fuel: nat)
    requires fuel > 1
    requires var c := EvalExpr(st, cond, fuel - 1);
             && c.Ok? && PopVal(c.value).Ok?
             && var p := PopVal(c.value).value;
             && BoolOf(p.0.heap, p.1) == Ok(true)
             && var b := LoopBody(p.0, body, fuel - 1);
             && b.Ok? && !b.value.needReturn && b.value.needBreak
    ensures var p := PopVal(EvalExpr(st, cond, fuel - 1).value).value;
            var b := LoopBody(p.0, body, fuel - 1).value;
            ForLoop(st, Some(cond), post, body, fuel) == Ok(b.(needBreak := false))
  {
  }

  /**
   * One turn of a for loop whose body leaves a continue pending: the flag is
   * cleared, the post statement still runs, and the loop tests again.
   */
  lemma ForContinueRunsPost(st: State, cond: Expr, post: Option<Stmt>, body: seq<Stmt>, fuel: nat)
    requires fuel > 1
    requires var c := EvalExpr(st, cond, fuel - 1);
             && c.Ok? && PopVal(c.value).Ok?
             && var p := PopVal(c.value).value;
             && BoolOf(p.0.heap, p.1) == Ok(true)
             && var b := LoopBody(p.0, body, fuel - 1);
             && b.Ok? && !b.value.needReturn && !b.value.needBreak && b.value.needContinue
    ensures var p := PopVal(EvalExpr(st, cond, fuel - 1).value).value;
            var b := LoopBody(p.0, body, fuel - 1).value;
            ForLoop(st, Some(cond), post, body, fuel) ==
              match ExecOptional(b.(needContinue := false), post, fuel - 1)
              case Err(e) => Err(e)
              case Ok(s1) => ForLoop(s1, Some(cond), post, body, fuel - 1)
  {
  }

  /** A for loop whose condition is false runs neither its body nor its post statement. */
  lemma ForFalseConditionStops(st: State, cond: Expr, post: Option<Stmt>, body: seq<Stmt>, fuel: nat)
    requires fuel > 1
    requires var c := EvalExpr(st, cond, fuel - 1);
             && c.Ok? && PopVal(c.value).Ok?
             && var p := PopVal(c.value).value;
             && BoolOf(p.0.heap, p.1) == Ok(false)
    ensures ForLoop(st, Some(cond), post, body, fuel) == Ok(PopVal(EvalExpr(st, cond, fuel - 1).value).value.0)
  {
  }

  /** A for statement without a condition dereferences nil. */
  lemma ForWithoutCondition(st: State, post: Option<Stmt>, body: seq<Stmt>, fuel: nat)
    requires fuel > 0
    ensures ForLoop(st, None, post, body, fuel) == Err(NilDereference)
  {
  }

  // The operator table.

  /**
   * Every arithmetic and bitwise token sends an integer operator message,
   * every comparison token a comparison message, and every compound
   * assignment token a message the integer's in-place table knows, except
   * `&^` and `&^=`, whose messages nothing handles.
   */
  lemma OperatorTable()
    ensures forall t :: t in {Add, Sub, Mul, Quo, Rem, And, Or, Xor, Shl, Shr} ==> IsArithMessage(OpMessage(t))
    ensures forall t :: t in {Eql, Lss, Gtr, Leq, Geq, Neq} ==> IsCompareMessage(OpMessage(t))
    ensures forall t :: t in {AddAssign, SubAssign, MulAssign, QuoAssign, RemAssign,
                              AndAssign, OrAssign, XorAssign, ShlAssign, ShrAssign}
                        ==> IsCompoundMessage(OpMessage(t))
    ensures !IsArithMessage(OpMessage(AndNot)) && !IsCompareMessage(OpMessage(AndNot))
    ensures !IsCompoundMessage(OpMessage(AndNotAssign))
  {
  }

  // Whole expressions and statements.

  lemma SnocInjective(a: seq<Ref>, b: seq<Ref>, x: Ref, y: Ref)
    requires a + [x] == b + [y]
    ensures a == b && x == y
  {
    assert |a| == |b|;
    assert a == (a + [x])[..|a|];
    assert b == (b + [y])[..|b|];
    assert x == (a + [x])[|a|];
  }

  /** A name other than true and false evaluates to its binding, pushed. */
  lemma IdentPushesBinding(st: State, name: string, fuel: nat)
    requires fuel > 0 && name != "true" && name != "false"
    requires Valid(st.heap, LookUp(st.env, name).val)
    ensures EvalExpr(st, Ident(name), fuel) == Ok(PushVal(st, LookUp(st.env, name).val))
  {
  }

  /** The state once both operands have been pushed and popped again. */
  function OperandsPopped(st: State, xa: Ref, xb: Ref): (r: State)
    ensures r == st.(stack := r.stack) && Live(r.stack) == Live(st.stack)
  {
    var s2 := Push(Push(st.stack, xa), xb);
    assert s2.vals[..st.stack.cur] == (Live(st.stack) + [xa] + [xb])[..st.stack.cur];
    st.(stack := Stack(st.stack.cur, s2.vals))
  }

  /**
   * Evaluating `a OP b` for two bound names: the left operand is pushed
   * first, both are popped, and the operator's message is sent to the left
   * one with the right one; its first result is pushed.
   */
  /** Evaluating two names pushes their bindings; popping twice gives them back, right one first. */
  lemma NamesPushedAndPopped(st: State, a: string, b: string, fuel: nat)
    requires fuel >= 1
    requires a != "true" && a != "false" && b != "true" && b != "false"
    requires Valid(st.heap, LookUp(st.env, a).val) && Valid(st.heap, LookUp(st.env, b).val)
    ensures var xa, xb := LookUp(st.env, a).val, LookUp(st.env, b).val;
            var s1 := PushVal(st, xa);
            var s2 := PushVal(s1, xb);
            EvalExpr(st, Ident(a), fuel) == Ok(s1) && EvalExpr(s1, Ident(b), fuel) == Ok(s2)
            && PopVal(s2).Ok? && PopVal(s2).value.1 == xb
            && PopVal(PopVal(s2).value.0) == Ok((OperandsPopped(st, xa, xb), xa))
  {
    var xa, xb := LookUp(st.env, a).val, LookUp(st.env, b).val;
    var s1 := PushVal(st, xa);
    IdentPushesBinding(st, a, fuel);
    var s2 := PushVal(s1, xb);
    IdentPushesBinding(s1, b, fuel);
    var right := PopVal(s2).value;
    SnocInjective(Live(right.0.stack), Live(s1.stack), right.1, xb);
    var left := PopVal(right.0).value;
    SnocInjective(Live(left.0.stack), Live(st.stack), left.1, xa);
    assert left.0 == OperandsPopped(st, xa, xb);
  }

  lemma BinaryOfNames(st: State, op: Token, a: string, b: string, fuel: nat)
    requires fuel >= 2
    requires a != "true" && a != "false" && b != "true" && b != "false"
    requires Valid(st.heap, LookUp(st.env, a).val) && Valid(st.heap, LookUp(st.env, b).val)
    ensures var xa, xb := LookUp(st.env, a).val, LookUp(st.env, b).val;
            EvalExpr(st, Binary(op, Ident(a), Ident(b)), fuel)
            == (match Send(OperandsPopped(st, xa, xb), xa, OpMessage(op), [xb])
                case Err(e) => Err(e)
                case Ok(sent) =>
                  match First(sent.1, OpMessage(op))
                  case Err(e) => Err(e)
                  case Ok(v) => Ok(PushVal(sent.0, v)))
  {
    NamesPushedAndPopped(st, a, b, fuel - 1);
    assert EvalExpr(st, Binary(op, Ident(a), Ident(b)), fuel) == EvalBinary(st, op, Ident(a), Ident(b), fuel - 1);
  }

  /**
   * `a + b` on two integers inside the exact range pushes one new integer,
   * their sum, and leaves the left operand as it was.
   */
  lemma AddOfIntegerNames(st: State, a: string, b: string, fuel: nat)
    requires fuel >= 2
    requires a != "true" && a != "false" && b != "true" && b != "false"
    requires var xa, xb := LookUp(st.env, a).val, LookUp(st.env, b).val;
             && IsInt(st.heap, xa) && IsInt(st.heap, xb)
             && Exact53(At(st.heap, xa).v) && Exact53(At(st.heap, xb).v)
             && Exact53(At(st.heap, xa).v + At(st.heap, xb).v)
    ensures var xa, xb := LookUp(st.env, a).val, LookUp(st.env, b).val;
            var r := EvalExpr(st, Binary(Add, Ident(a), Ident(b)), fuel);
            && r.Ok? && r.value.env == st.env
            && |Live(r.value.stack)| == |Live(st.stack)| + 1
            && Live(r.value.stack)[..|Live(st.stack)|] == Live(st.stack)
            && var n := Live(r.value.stack)[|Live(st.stack)|];
            && !Valid(st.heap, n) && IsInt(r.value.heap, n)
            && At(r.value.heap, n).v == At(st.heap, xa).v + At(st.heap, xb).v
            && At(r.value.heap, xa) == At(st.heap, xa)
  {
    var xa, xb := LookUp(st.env, a).val, LookUp(st.env, b).val;
    BinaryOfNames(st, Add, a, b, fuel);
    IntAddSubMul(st.heap, xa, xb, "__add__");
    var st' := OperandsPopped(st, xa, xb);
    var out := Dispatch(st.heap, xa, "__add__", [xb]).value;
    var r := PushVal(st'.(heap := out.heap), out.results[0]);
    assert EvalExpr(st, Binary(Add, Ident(a), Ident(b)), fuel) == Ok(r);
    assert Live(r.stack) == Live(st.stack) + [out.results[0]];
  }

  /**
   * `a &^ b` on integers fails: the integer knows no `__and_not__`, so the
   * message answers nothing and the evaluator's `rets[0]` is out of range.
   */
  lemma AndNotOfIntegerNamesFails(st: State, a: string, b: string, fuel: nat)
    requires fuel >= 2
    requires a != "true" && a != "false" && b != "true" && b != "false"
    requires IsInt(st.heap, LookUp(st.env, a).val) && Valid(st.heap, LookUp(st.env, b).val)
    ensures EvalExpr(st, Binary(AndNot, Ident(a), Ident(b)), fuel) == Err(NoResult("__and_not__"))
  {
    var xa, xb := LookUp(st.env, a).val, LookUp(st.env, b).val;
    BinaryOfNames(st, AndNot, a, b, fuel);
    AndNotSendsNothing(OperandsPopped(st, xa, xb), xa, xb);
  }

  /** The evaluator's `__and_not__` message to an integer answers nothing and changes nothing. */
  lemma AndNotSendsNothing(st: State, xa: Ref, xb: Ref)
    requires IsInt(st.heap, xa)
    ensures OpMessage(AndNot) == "__and_not__"
    ensures Send(st, xa, OpMessage(AndNot), [xb]) == Ok((st, []))
  {
    AndNotIsUnhandled(st.heap, xa, [xb]);
  }

  /** The state once one operand has been pushed and popped again. */
  function OnePopped(st: State, x: Ref): (r: State)
    ensures r == st.(stack := r.stack) && Live(r.stack) == Live(st.stack)
  {
    var s1 := Push(st.stack, x);
    assert s1.vals[..st.stack.cur] == (Live(st.stack) + [x])[..st.stack.cur];
    st.(stack := Stack(st.stack.cur, s1.vals))
  }

  /** `target op= b` for a bound name b: b is evaluated, popped and handed to the target. */
  lemma AssignFromName(st: State, target: Expr, tok: Token, b: string, fuel: nat)
    requires fuel >= 2
    requires b != "true" && b != "false" && Valid(st.heap, LookUp(st.env, b).val)
    ensures var xb := LookUp(st.env, b).val;
            ExecStmt(st, AssignStmt([target], tok, [Ident(b)]), fuel)
            == AssignTo(OnePopped(st, xb), target, tok, xb, fuel - 1)
  {
    var xb := LookUp(st.env, b).val;
    var s1 := PushVal(st, xb);
    IdentPushesBinding(st, b, fuel - 1);
    var p := PopVal(s1).value;
    SnocInjective(Live(p.0.stack), Live(st.stack), p.1, xb);
    assert p.0 == OnePopped(st, xb);
    var r := AssignTo(p.0, target, tok, xb, fuel - 1);
    if r.Ok? {
      assert ExecAssign(r.value, [], tok, [], fuel - 1) == Ok(r.value);
    }
    assert ([target])[1..] == [] && ([Ident(b)])[1..] == [];
    assert ExecAssign(st, [target], tok, [Ident(b)], fuel - 1) == r;
  }

  /**
   * `a &^= b` on an integer changes nothing: the evaluator sends `__&^=__`
   * and the integer's table only knows `__&^___`.
   */
  lemma AndNotAssignLeavesValue(st: State, a: string, b: string, fuel: nat)
    requires fuel >= 2
    requires b != "true" && b != "false"
    requires IsInt(st.heap, LookUp(st.env, a).val) && Valid(st.heap, LookUp(st.env, b).val)
    ensures var r := ExecStmt(st, AssignStmt([Ident(a)], AndNotAssign, [Ident(b)]), fuel);
            && r.Ok? && r.value.heap == st.heap && r.value.env == st.env
            && Live(r.value.stack) == Live(st.stack)
  {
    var xa, xb := LookUp(st.env, a).val, LookUp(st.env, b).val;
    AssignFromName(st, Ident(a), AndNotAssign, b, fuel);
    AndNotIsUnhandled(st.heap, xa, [xb]);
    var p0 := OnePopped(st, xb);
    assert OpMessage(AndNotAssign) == "__&^=__";
    assert Send(p0, xa, "__&^=__", [xb]) == Ok((p0, []));
    assert AssignTo(p0, Ident(a), AndNotAssign, xb, fuel - 1) == Ok(p0);
  }

  /**
   * Values are shared, not copied: when y is bound to the same object as x,
   * `x op= b` is seen through y, which afterwards reads exactly the object
   * the operator left at x's reference.
   */
  lemma AliasSeesCompoundAssign(st: State, x: string, y: string, tok: Token, b: string, fuel: nat)
    requires fuel >= 2 && tok != Assign
    requires b != "true" && b != "false" && Valid(st.heap, LookUp(st.env, b).val)
    requires LookUp(st.env, x).val == LookUp(st.env, y).val
    requires Dispatch(st.heap, LookUp(st.env, x).val, OpMessage(tok), [LookUp(st.env, b).val]).Ok?
    ensures var xx, xb := LookUp(st.env, x).val, LookUp(st.env, b).val;
            var out := Dispatch(st.heap, xx, OpMessage(tok), [xb]).value;
            var r := ExecStmt(st, AssignStmt([Ident(x)], tok, [Ident(b)]), fuel);
            && r.Ok? && r.value.env == st.env
            && var ry := LookUp(r.value.env, y).val;
            && Valid(r.value.heap, ry) && At(r.value.heap, ry) == At(out.heap, xx)
  {
    CompoundAssignStmt(st, x, tok, b, fuel);
  }

  /** The `__+=__` case of the in-place compound assignments. */
  lemma AddAssignInPlace(h: Heap, self: Ref, arg: Ref)
    requires IsInt(h, self) && IsInt(h, arg) && Exact53(At(h, arg).v)
    ensures var r := Dispatch(h, self, "__+=__", [arg]);
            && r.Ok?
            && IsInt(r.value.heap, self)
            && At(r.value.heap, self).v == Wrap64(At(h, self).v + At(h, arg).v)
  {
    CompoundAssignInPlace(h, self, arg, "__+=__");
  }

  /** `x op= b` for bound names: the operator's message goes to x's value, and only the heap changes. */
  lemma CompoundAssignStmt(st: State, x: string, tok: Token, b: string, fuel: nat)
    requires fuel >= 2 && tok != Assign
    requires b != "true" && b != "false" && Valid(st.heap, LookUp(st.env, b).val)
    requires Dispatch(st.heap, LookUp(st.env, x).val, OpMessage(tok), [LookUp(st.env, b).val]).Ok?
    ensures var xb := LookUp(st.env, b).val;
            var out := Dispatch(st.heap, LookUp(st.env, x).val, OpMessage(tok), [xb]).value;
            var r := ExecStmt(st, AssignStmt([Ident(x)], tok, [Ident(b)]), fuel);
            && r == Ok(OnePopped(st, xb).(heap := out.heap))
            && r.value.env == st.env && r.value.heap == out.heap
  {
    var xb := LookUp(st.env, b).val;
    AssignFromName(st, Ident(x), tok, b, fuel);
    CompoundAssignToName(OnePopped(st, xb), x, tok, xb, fuel - 1);
  }

  /** `name op= v` sends the operator's message to the name's value; only the heap changes. */
  lemma CompoundAssignToName(st: State, name: string, tok: Token, v: Ref, fuel: nat)
    requires fuel >= 1 && tok != Assign
    requires Dispatch(st.heap, LookUp(st.env, name).val, OpMessage(tok), [v]).Ok?
    ensures AssignTo(st, Ident(name), tok, v, fuel) ==
              Ok(st.(heap := Dispatch(st.heap, LookUp(st.env, name).val, OpMessage(tok), [v]).value.heap))
  {
  }

  // Calls.

  /** Names used as call arguments. */
  function Idents(names: seq<string>): (r: seq<Expr>)
    ensures |r| == |names| && forall i :: 0 <= i < |names| ==> r[i] == Ident(names[i])
  {
    seq(|names|, i requires 0 <= i < |names| => Ident(names[i]))
  }

  /** The values the names are bound to in e. */
  function ArgValues(e: Env, names: seq<string>): (r: seq<Ref>)
    ensures |r| == |names| && forall i :: 0 <= i < |names| ==> r[i] == LookUp(e, names[i]).val
  {
    seq(|names|, i requires 0 <= i < |names| => LookUp(e, names[i]).val)
  }

  /** The reference definition of argument binding: frame f after binding ps[i] to vals[i] in turn. */
  function BindFrame(f: Frame, ps: seq<string>, vals: seq<Ref>): Frame
    requires |vals| <= |ps|
    decreases |vals|
  {
    if |vals| == 0 then f else BindFrame(f[ps[0] := vals[0]], ps[1..], vals[1..])
  }

  /** Names that are not parameters keep their binding in the frame. */
  lemma {:induction false} BindFrameOthers(f: Frame, ps: seq<string>, vals: seq<Ref>, k: string)
    requires |vals| <= |ps| && k !in ps[..|vals|]
    ensures (k in BindFrame(f, ps, vals) <==> k in f)
    ensures k in f ==> BindFrame(f, ps, vals)[k] == f[k]
    decreases |vals|
  {
    if |vals| > 0 {
      assert k != ps[0];
      assert ps[1..][..|vals| - 1] == ps[1..|vals|];
      BindFrameOthers(f[ps[0] := vals[0]], ps[1..], vals[1..], k);
    }
  }

  /** Parameter j holds the j-th value, unless a later parameter has the same name. */
  lemma {:induction false} BindFrameAt(f: Frame, ps: seq<string>, vals: seq<Ref>, j: nat)
    requires |vals| <= |ps| && j < |vals| && ps[j] !in ps[j + 1..|vals|]
    ensures ps[j] in BindFrame(f, ps, vals) && BindFrame(f, ps, vals)[ps[j]] == vals[j]
    decreases |vals|
  {
    if j == 0 {
      assert ps[1..][..|vals| - 1] == ps[1..|vals|];
      BindFrameOthers(f[ps[0] := vals[0]], ps[1..], vals[1..], ps[0]);
    } else {
      assert ps[1..][j..|vals| - 1] == ps[j + 1..|vals|];
      BindFrameAt(f[ps[0] := vals[0]], ps[1..], vals[1..], j - 1);
    }
  }

  /** A bound name evaluated and popped again: the stack is back and the value is the binding. */
  lemma NamePushedAndPopped(st: State, n: string, fuel: nat)
    requires fuel > 0 && n != "true" && n != "false" && Valid(st.heap, LookUp(st.env, n).val)
    ensures var v := LookUp(st.env, n).val;
            && EvalExpr(st, Ident(n), fuel) == Ok(PushVal(st, v))
            && PopVal(PushVal(st, v)) == Ok((OnePopped(st, v), v))
  {
    var v := LookUp(st.env, n).val;
    IdentPushesBinding(st, n, fuel);
    var p := PopVal(PushVal(st, v)).value;
    SnocInjective(Live(p.0.stack), Live(st.stack), p.1, v);
    assert p.0 == OnePopped(st, v);
  }

  /** One step of argument binding with a bound name as the argument. */
  lemma BindArgsStep(st: State, ps: seq<string>, args: seq<Expr>, n: string, fuel: nat)
    requires fuel > 0 && |st.env| > 0 && |ps| > 0 && |args| > 0 && args[0] == Ident(n)
    requires n != "true" && n != "false" && Valid(st.heap, LookUp(st.env, n).val)
    ensures var v := LookUp(st.env, n).val;
            BindArgs(st, ps, args, fuel)
            == BindArgs(OnePopped(st, v).(env := Put(st.env, ps[0], v)), ps[1..], args[1..], fuel)
  {
    NamePushedAndPopped(st, n, fuel);
  }

  /** Dropping the first argument and the first parameter keeps "no argument names an earlier parameter". */
  lemma NotEarlierParameterTail(ps: seq<string>, names: seq<string>)
    requires 0 < |names| <= |ps|
    requires forall i :: 0 <= i < |names| ==> names[i] !in ps[..i]
    ensures forall i :: 0 <= i < |names| - 1 ==> names[1..][i] !in ps[1..][..i]
  {
    forall i | 0 <= i < |names| - 1
      ensures names[1..][i] !in ps[1..][..i]
    {
      assert ps[1..][..i] == ps[..i + 1][1..];
    }
  }

  /**
   * Binding the first parameter to the first argument's value leaves the
   * later arguments' values as they were, and the binding of the rest
   * completes the binding of all.
   */
  lemma ArgValuesAfterPut(e: Env, ps: seq<string>, names: seq<string>)
    requires |e| > 0 && 0 < |names| <= |ps|
    requires forall i :: 0 <= i < |names| ==> names[i] !in ps[..i]
    ensures var v := LookUp(e, names[0]).val;
            var e' := Put(e, ps[0], v);
            var top := |e| - 1;
            && Idents(names)[1..] == Idents(names[1..])
            && ArgValues(e', names[1..]) == ArgValues(e, names)[1..]
            && e'[top := BindFrame(e'[top], ps[1..], ArgValues(e', names[1..]))]
               == e[top := BindFrame(e[top], ps, ArgValues(e, names))]
  {
    var v := LookUp(e, names[0]).val;
    var e' := Put(e, ps[0], v);
    forall i | 1 <= i < |names|
      ensures LookUp(e', names[i]) == LookUp(e, names[i])
    {
      assert ps[0] == ps[..i][0];
      LookUpAfterPutOther(e, ps[0], v, names[i]);
    }
    assert Idents(names)[1..] == Idents(names[1..]);
    assert ArgValues(e', names[1..]) == ArgValues(e, names)[1..];
  }

  /**
   * `f(n0, n1, ...)` with bound names as arguments: the parameters are bound
   * in the callee's frame, in order, to the names' values.  The condition on
   * the names says that no argument names a parameter bound before it; the
   * arguments are evaluated in the callee's frame, where such a name would
   * already read the parameter (see ArgumentReadsEarlierParameter).
   */
  lemma {:induction false} BindNamedArgs(st: State, ps: seq<string>, names: seq<string>, fuel: nat)
    requires fuel > 0 && |st.env| > 0 && |names| <= |ps|
    requires forall i :: 0 <= i < |names| ==> names[i] != "true" && names[i] != "false" && names[i] !in ps[..i]
    requires forall i :: 0 <= i < |names| ==> Valid(st.heap, LookUp(st.env, names[i]).val)
    ensures var r := BindArgs(st, ps, Idents(names), fuel);
            var top := |st.env| - 1;
            && r.Ok?
            && r.value == st.(env := r.value.env, stack := r.value.stack)
            && Live(r.value.stack) == Live(st.stack)
            && r.value.env == st.env[top := BindFrame(st.env[top], ps, ArgValues(st.env, names))]
    decreases |names|
  {
    var top := |st.env| - 1;
    if |names| > 0 {
      var v := LookUp(st.env, names[0]).val;
      BindArgsStep(st, ps, Idents(names), names[0], fuel);
      var s2 := OnePopped(st, v).(env := Put(st.env, ps[0], v));
      ArgValuesAfterPut(st.env, ps, names);
      NotEarlierParameterTail(ps, names);
      BindNamedArgs(s2, ps[1..], names[1..], fuel);
    }
  }

  /** Positional binding: parameter j holds the value of the j-th argument name. */
  lemma ParameterHoldsArgument(st: State, ps: seq<string>, names: seq<string>, j: nat, fuel: nat)
    requires fuel > 0 && |st.env| > 0 && |names| <= |ps|
    requires forall i :: 0 <= i < |names| ==> names[i] != "true" && names[i] != "false" && names[i] !in ps[..i]
    requires forall i :: 0 <= i < |names| ==> Valid(st.heap, LookUp(st.env, names[i]).val)
    requires j < |names| && ps[j] !in ps[j + 1..|names|]
    ensures var r := BindArgs(st, ps, Idents(names), fuel);
            var top := |st.env| - 1;
            && r.Ok? && ps[j] in r.value.env[top]
            && r.value.env[top][ps[j]] == LookUp(st.env, names[j]).val
  {
    BindNamedArgs(st, ps, names, fuel);
    BindFrameAt(st.env[|st.env| - 1], ps, ArgValues(st.env, names), j);
  }

  /**
   * Arguments are evaluated inside the callee's new frame, after the
   * parameters before them are bound: for parameters (a, b), the call
   * `f(x, a)` binds b to x's value, not to the caller's a.
   */
  lemma ArgumentReadsEarlierParameter(st: State, a: string, b: string, x: string, fuel: nat)
    requires fuel > 0 && |st.env| > 0 && a != b
    requires x != "true" && x != "false" && a != "true" && a != "false"
    requires Valid(st.heap, LookUp(st.env, x).val)
    ensures var r := BindArgs(st, [a, b], [Ident(x), Ident(a)], fuel);
            var top := |st.env| - 1;
            && r.Ok? && a in r.value.env[top] && b in r.value.env[top]
            && r.value.env[top][a] == LookUp(st.env, x).val
            && r.value.env[top][b] == LookUp(st.env, x).val
  {
    var v := LookUp(st.env, x).val;
    BindArgsStep(st, [a, b], [Ident(x), Ident(a)], x, fuel);
    var s2 := OnePopped(st, v).(env := Put(st.env, a, v));
    LookUpAfterPut(st.env, a, v);
    assert [a, b][1..] == [b] && [Ident(x), Ident(a)][1..] == [Ident(a)];
    BindArgsStep(s2, [b], [Ident(a)], a, fuel);
    assert [b][1..] == [] && [Ident(a)][1..] == [];
  }

  /** Calling an unbound name that is not a builtin does nothing at all. */
  lemma UnknownCallIsNoOp(st: State, name: string, args: seq<Expr>, fuel: nat)
    requires fuel >= 2
    requires LookUp(st.env, name).owner == -1 && name !in Builtins
    ensures EvalExpr(st, Call(Ident(name), args), fuel) == Ok(st)
  {
  }

  /**
   * `print()` with `print` unbound calls the registry builtin, which returns
   * nothing: the stack and the scope chain are as before.
   */
  lemma PrintCallLeavesNoResult(st: State, fuel: nat)
    requires fuel >= 3
    requires LookUp(st.env, "print").owner == -1
    ensures var r := EvalExpr(st, Call(Ident("print"), []), fuel);
            && r.Ok? && r.value.env == st.env && Live(r.value.stack) == Live(st.stack)
  {
    var made := NewFunc(st.heap, "print", None);
    var s0 := st.(heap := made.0);
    var s1 := s0.(env := NewEnv(st.env));
    assert Dispatch(made.0, made.1, CallMsg, []) == Ok(Outcome(made.0, []));
    assert CallNative(s0, made.1, [], fuel - 2) == Ok(s1.(env := Outer(s1.env)));
  }

  /** A list of one bound name evaluates to that name's value, with the stack as before. */
  lemma EachOfOneName(st: State, n: string, fuel: nat)
    requires fuel > 0 && n != "true" && n != "false" && Valid(st.heap, LookUp(st.env, n).val)
    ensures var v := LookUp(st.env, n).val;
            EvalEach(st, [Ident(n)], fuel) == Ok((OnePopped(st, v), [v]))
  {
    var v := LookUp(st.env, n).val;
    NamePushedAndPopped(st, n, fuel);
    assert [Ident(n)][1..] == [];
    assert EvalEach(OnePopped(st, v), [], fuel) == Ok((OnePopped(st, v), []));
    assert [v] + [] == [v];
  }

  /** `print(n)` with a bound name: its value is passed, and the call still leaves nothing behind. */
  lemma PrintOfNameLeavesNoResult(st: State, n: string, fuel: nat)
    requires fuel >= 4
    requires LookUp(st.env, "print").owner == -1
    requires n != "true" && n != "false" && Valid(st.heap, LookUp(st.env, n).val)
    ensures var r := EvalExpr(st, Call(Ident("print"), [Ident(n)]), fuel);
            && r.Ok? && r.value.env == st.env && Live(r.value.stack) == Live(st.stack)
  {
    var made := NewFunc(st.heap, "print", None);
    var s0 := st.(heap := made.0);
    var v := LookUp(st.env, n).val;
    EachOfOneName(s0, n, fuel - 3);
    var s1 := OnePopped(s0, v);
    var s2 := s1.(env := NewEnv(s1.env));
    assert Dispatch(made.0, made.1, CallMsg, [v]) == Ok(Outcome(made.0, []));
    assert CallNative(s0, made.1, [Ident(n)], fuel - 2) == Ok(s2.(env := Outer(s2.env)));
  }

  /** Each turn of a range loop binds the key to a new integer i and the value to the element, in the loop's frame. */
  lemma RangeBindsKeyAndValue(st: State, i: Int64, key: string, val: string, elem: Ref)
    requires |st.env| > 0 && key != val
    ensures var r := BindIteration(st, i, key, val, elem);
            var top := |st.env| - 1;
            && LookUp(r.env, val) == Found(elem, top)
            && var k := LookUp(r.env, key);
            && k.owner == top && !Valid(st.heap, k.val)
            && IsInt(r.heap, k.val) && At(r.heap, k.val).v == i
  {
    var made := NewInteger(st.heap, i);
    var e1 := Put(st.env, key, made.1);
    LookUpAfterPut(st.env, key, made.1);
    LookUpAfterPut(e1, val, elem);
  }

  /**
   * Turn i of a range loop binds elems[i]; a break left pending by its body
   * ends the loop there with the break consumed, and no later element is visited.
   */
  lemma RangeBreakEndsLoop(st: State, elems: seq<Ref>, i: nat, key: string, val: string, body: seq<Stmt>, fuel: nat)
    requires |st.env| > 0 && i < |elems| && InInt64(i) && fuel > 0
    requires var b := LoopBody(BindIteration(st, i, key, val, elems[i]), body, fuel - 1);
             b.Ok? && b.value.needBreak && !b.value.needReturn
    ensures var b := LoopBody(BindIteration(st, i, key, val, elems[i]), body, fuel - 1).value;
            RangeLoop(st, elems, i, key, val, body, fuel) == Ok(b.(needBreak := false))
  {
  }

  /**
   * Turn i of a range loop binds elems[i]; unless its body left a return or
   * a break pending, the loop clears any continue and goes on to element i + 1.
   */
  lemma RangeTurnMovesOn(st: State, elems: seq<Ref>, i: nat, key: string, val: string, body: seq<Stmt>, fuel: nat)
    requires |st.env| > 0 && i < |elems| && InInt64(i) && fuel > 0
    requires var b := LoopBody(BindIteration(st, i, key, val, elems[i]), body, fuel - 1);
             b.Ok? && !b.value.needBreak && !b.value.needReturn
    ensures var b := LoopBody(BindIteration(st, i, key, val, elems[i]), body, fuel - 1).value;
            && |b.env| == |st.env|
            && RangeLoop(st, elems, i, key, val, body, fuel)
               == RangeLoop(b.(needContinue := false), elems, i + 1, key, val, body, fuel - 1)
  {
  }
}
