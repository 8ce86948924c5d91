/**
 * The tree-walking evaluator of comp/eval.go.  Expressions leave their value
 * on the operand stack; statements run for their effect on the heap, the
 * scope chain and the control flags (return, break, continue).  A Go panic
 * or fatal exit becomes an `Err` carrying the fault.
 *
 * Every visitor takes a fuel argument that shrinks on each nested visit, so
 * that a program that does not terminate in Go runs out of fuel here.
 */
module Eval {
  import opened Wrappers
  import opened Faults
  import opened Ints
  import opened Strings
  import opened Ast
  import opened RtObjects
  import opened RtDispatch
  import opened Env
  import opened OperandStack

  /** The evaluator's fields: heap, scope chain, operand stack, current function, flags. */
  datatype State = State(
    heap: Heap,
    env: Env,
    stack: ValidStack,
    fun: Option<FuncDecl>,
    needReturn: bool,
    loopDepth: int,
    needBreak: bool,
    needContinue: bool)

  /**
   * What every visit preserves: the scope chain is as deep as before; the
   * current frame may gain names but loses none, the frames under it keep
   * theirs; the loop depth and the current function are restored; objects
   * keep their type.
   */
  ghost predicate Keeps(st: State, st': State)
  {
    && |st'.env| == |st.env|
    && (forall i :: 0 <= i < |st.env| - 1 ==> st'.env[i].Keys == st.env[i].Keys)
    && (|st.env| > 0 ==> st.env[|st.env| - 1].Keys <= st'.env[|st.env| - 1].Keys)
    && st'.loopDepth == st.loopDepth
    && st'.fun == st.fun
    && Extends(st.heap, st'.heap)
  }

  lemma KeepsTransitive(s1: State, s2: State, s3: State)
    requires Keeps(s1, s2) && Keeps(s2, s3)
    ensures Keeps(s1, s3)
  {
    ExtendsTransitive(s1.heap, s2.heap, s3.heap);
  }

  /** `OpFuncs`: the message an operator token sends to its left operand. */
  function OpFuncs(tok: Token): Option<string>
  {
    match tok
    case Add => Some("__add__")
    case Sub => Some("__sub__")
    case Mul => Some("__mul__")
    case Quo => Some("__quo__")
    case Rem => Some("__rem__")
    case And => Some("__and__")
    case Or => Some("__or__")
    case Xor => Some("__xor__")
    case Shl => Some("__shl__")
    case Shr => Some("__shr__")
    case AndNot => Some("__and_not__")
    case LAnd => Some("__land__")
    case LOr => Some("__lor__")
    case Eql => Some("__eql__")
    case Lss => Some("__lss__")
    case Gtr => Some("__gtr__")
    case Leq => Some("__leq__")
    case Geq => Some("__geq__")
    case Neq => Some("__neq__")
    case AddAssign => Some("__+=__")
    case SubAssign => Some("__-=__")
    case MulAssign => Some("__*=__")
    case QuoAssign => Some("__/=__")
    case RemAssign => Some("__%=__")
    case AndAssign => Some("__&=__")
    case OrAssign => Some("__|=__")
    case XorAssign => Some("__^=__")
    case ShlAssign => Some("__<<=__")
    case ShrAssign => Some("__>>=__")
    case AndNotAssign => Some("__&^=__")
    case _ => None
  }

  /** `OpFuncs[tok]`: a token missing from the table reads as "". */
  function OpMessage(tok: Token): string
  {
    match OpFuncs(tok)
    case Some(m) => m
    case None => ""
  }

  /** `ContainsString`: a linear search that stops at the first match. */
  function ContainsString(ss: seq<string>, s: string): (found: bool)
    ensures found <==> s in ss
  {
    if |ss| == 0 then false
    else if ss[0] == s then true
    else ContainsString(ss[1..], s)
  }

  // Small steps shared by the visitors.

  function PushVal(st: State, x: Ref): (r: State)
    ensures r == st.(stack := r.stack) && Live(r.stack) == Live(st.stack) + [x]
  {
    st.(stack := Push(st.stack, x))
  }

  /** Pushes a newly allocated object. */
  function PushNew(st: State, made: (Heap, Ref)): (r: State)
    requires Extends(st.heap, made.0)
    ensures Keeps(st, r) && Live(r.stack) == Live(st.stack) + [made.1]
  {
    st.(heap := made.0, stack := Push(st.stack, made.1))
  }

  function PushAll(st: State, rs: seq<Ref>): (st': State)
    ensures st' == st.(stack := st'.stack) && Live(st'.stack) == Live(st.stack) + rs
    decreases |rs|
  {
    if |rs| == 0 then st
    else PushAll(PushVal(st, rs[0]), rs[1..])
  }

  function PopVal(st: State): (r: Result<(State, Ref), Fault>)
    ensures r.Err? <==> Live(st.stack) == []
    ensures r.Ok? ==> r.value.0 == st.(stack := r.value.0.stack)
                      && Live(st.stack) == Live(r.value.0.stack) + [r.value.1]
  {
    var p :- Pop(st.stack);
    Ok((st.(stack := p.0), p.1))
  }

  /** Sends a message; only the heap of the state changes. */
  function Send(st: State, recv: Ref, msg: string, args: seq<Ref>): (r: Result<(State, seq<Ref>), Fault>)
    ensures r.Ok? ==> Keeps(st, r.value.0) && r.value.0 == st.(heap := r.value.0.heap)
  {
    var out :- Dispatch(st.heap, recv, msg, args);
    Ok((st.(heap := out.heap), out.results))
  }

  /** `rets[0]`: a message that answered nothing cannot be indexed. */
  function First(rets: seq<Ref>, msg: string): Result<Ref, Fault>
  {
    if |rets| == 0 then Err(NoResult(msg)) else Ok(rets[0])
  }

  /** `cond.(*BoolObject).val`. */
  function BoolOf(h: Heap, r: Ref): Result<bool, Fault>
  {
    if Valid(h, r) && At(h, r).BoolObj? then Ok(At(h, r).b) else Err(TypeAssertion("bool"))
  }

  /**
   * Plain assignment to a name (`VisitAssignStmt`, the identifier case): a
   * new name goes to the current frame; a local name of the running
   * function found only in an outer frame is shadowed in the current frame;
   * otherwise the frame that owns the name is updated.
   */
  function AssignIdent(st: State, name: string, v: Ref): (r: Result<State, Fault>)
    ensures r.Err? <==> |st.env| == 0
    ensures r.Ok? ==> r.value == st.(env := r.value.env) && |r.value.env| == |st.env|
  {
    if |st.env| == 0 then Err(NilDereference)
    else
      var f := LookUp(st.env, name);
      if !Valid(st.heap, f.val) then Ok(st.(env := Put(st.env, name, v)))
      else if st.fun.Some? && ContainsString(st.fun.value.localNames, name) && f.owner != |st.env| - 1 then
        Ok(st.(env := Put(st.env, name, v)))
      else Ok(st.(env := PutAt(st.env, f.owner, name, v)))
  }

  // The visitors.  Each one that runs a nested visit passes on fuel - 1;
  // the list walkers pass the same fuel on to the rest of the list.

  function EvalExpr(st: State, e: Expr, fuel: nat): (r: Result<State, Fault>)
    ensures r.Ok? ==> Keeps(st, r.value)
    decreases fuel, 0
  {
    if fuel == 0 then Err(OutOfFuel)
    else match e
      case Ident(name) => EvalIdent(st, name)
      case BasicLit(kind, text) => EvalBasicLit(st, kind, text)
      case Paren(x) => EvalExpr(st, x, fuel - 1)
      case Selector(x, sel) => EvalSelector(st, x, sel, fuel - 1)
      case Index(x, index) => EvalIndex(st, x, index, fuel - 1)
      case Slice(x, low, high) => EvalSlice(st, x, low, high, fuel - 1)
      case Call(fun, args) => EvalCall(st, fun, args, fuel - 1)
      case Unary(_, x) => EvalUnary(st, x, fuel - 1)
      case Binary(op, x, y) => EvalBinary(st, op, x, y, fuel - 1)
      case ArrayLit(elems) =>
        var a :- EvalEach(st, elems, fuel - 1);
        Ok(PushNew(a.0, NewArray(a.0.heap, a.1)))
      case SetLit(elems) =>
        var a :- EvalEach(st, elems, fuel - 1);
        Ok(PushNew(a.0, NewSet(a.0.heap, a.1)))
      case DictLit(fields) =>
        var a :- EvalFields(st, fields, map[], fuel - 1);
        Ok(PushNew(a.0, NewDict(a.0.heap, a.1)))
      case FuncLit(decl) => EvalFuncLit(st, decl)
  }

  /** `VisitSelectorExpr`: the property named by the selector. */
  function EvalSelector(st: State, x: Expr, sel: string, fuel: nat): (r: Result<State, Fault>)
    ensures r.Ok? ==> Keeps(st, r.value)
    decreases fuel, 1
  {
    var s1 :- EvalExpr(st, x, fuel);
    var p :- PopVal(s1);
    var made := NewString(p.0.heap, sel);
    var sent :- Send(p.0.(heap := made.0), p.1, GetPropertyMsg, [made.1]);
    var v :- First(sent.1, GetPropertyMsg);
    ExtendsTransitive(st.heap, p.0.heap, made.0);
    Ok(PushVal(sent.0, v))
  }

  /** `VisitIndexExpr`: the container is evaluated before the index. */
  function EvalIndex(st: State, x: Expr, index: Expr, fuel: nat): (r: Result<State, Fault>)
    ensures r.Ok? ==> Keeps(st, r.value)
    decreases fuel, 1
  {
    var s1 :- EvalExpr(st, x, fuel);
    var p :- PopVal(s1);
    var s2 :- EvalExpr(p.0, index, fuel);
    var q :- PopVal(s2);
    var sent :- Send(q.0, p.1, "__get_index__", [q.1]);
    var v :- First(sent.1, "__get_index__");
    KeepsTransitive(st, p.0, q.0);
    Ok(PushVal(sent.0, v))
  }

  /** `VisitSliceExpr`: a missing bound is passed as nil. */
  function EvalSlice(st: State, x: Expr, low: Option<Expr>, high: Option<Expr>, fuel: nat): (r: Result<State, Fault>)
    ensures r.Ok? ==> Keeps(st, r.value)
    decreases fuel, 2
  {
    var s1 :- EvalExpr(st, x, fuel);
    var p :- PopVal(s1);
    var lo :- EvalOptional(p.0, low, fuel);
    var hi :- EvalOptional(lo.0, high, fuel);
    var sent :- Send(hi.0, p.1, "__slice__", [lo.1, hi.1]);
    var v :- First(sent.1, "__slice__");
    KeepsTransitive(st, p.0, lo.0);
    KeepsTransitive(st, lo.0, hi.0);
    Ok(PushVal(sent.0, v))
  }

  /** `VisitUnaryExpr`: whatever the operator, the negated integer. */
  function EvalUnary(st: State, x: Expr, fuel: nat): (r: Result<State, Fault>)
    ensures r.Ok? ==> Keeps(st, r.value)
    decreases fuel, 1
  {
    var s1 :- EvalExpr(st, x, fuel);
    var p :- PopVal(s1);
    var v :- IntArg(p.0.heap, p.1);
    Ok(PushNegated(p.0, v))
  }

  /** `NewIntegerObject(-obj.val)` pushed: Go's negation wraps around. */
  function PushNegated(st: State, v: Int64): (r: State)
    ensures Keeps(st, r)
  {
    PushNew(st, NewInteger(st.heap, Wrap64(0 - v)))
  }

  /**
   * `VisitBinaryExpr`: both operands are evaluated, left first, and the
   * operator's message is sent to the left one with the right one.
   */
  function EvalBinary(st: State, op: Token, x: Expr, y: Expr, fuel: nat): (r: Result<State, Fault>)
    ensures r.Ok? ==> Keeps(st, r.value)
    decreases fuel, 1
  {
    var s1 :- EvalExpr(st, x, fuel);
    var s2 :- EvalExpr(s1, y, fuel);
    var right :- PopVal(s2);
    var left :- PopVal(right.0);
    var sent :- Send(left.0, left.1, OpMessage(op), [right.1]);
    var v :- First(sent.1, OpMessage(op));
    KeepsTransitive(st, s1, s2);
    KeepsTransitive(st, s2, sent.0);
    Ok(PushVal(sent.0, v))
  }

  /** `VisitFuncDeclExpr`: a named function is bound in the current frame, a closure is pushed. */
  function EvalFuncLit(st: State, decl: FuncDecl): (r: Result<State, Fault>)
    ensures r.Ok? ==> Keeps(st, r.value)
  {
    match decl.name
    case Some(fname) =>
      if |st.env| == 0 then Err(NilDereference)
      else
        var made := NewFunc(st.heap, fname, Some(decl));
        Ok(st.(heap := made.0, env := Put(st.env, fname, made.1)))
    case None => Ok(PushNew(st, NewFunc(st.heap, "#<closure>", Some(decl))))
  }

  /** `VisitIdent`: the two boolean names, else the innermost binding. */
  function EvalIdent(st: State, name: string): (r: Result<State, Fault>)
    ensures r.Ok? ==> Keeps(st, r.value)
  {
    if name == "true" then Ok(PushNew(st, NewBool(st.heap, true)))
    else if name == "false" then Ok(PushNew(st, NewBool(st.heap, false)))
    else
      var v := LookUp(st.env, name).val;
      if Valid(st.heap, v) then Ok(PushVal(st, v)) else Err(UnboundIdentifier(name))
  }

  /** `VisitBasicLit`: quotes are trimmed from both ends of string and char literals. */
  function EvalBasicLit(st: State, kind: LitKind, text: string): (r: Result<State, Fault>)
    ensures r.Ok? ==> Keeps(st, r.value)
  {
    match kind
    case IntLit =>
      (match Atoi(text)
       case None => Err(LiteralError(text))
       case Some(v) => Ok(PushNew(st, NewInteger(st.heap, v))))
    case FloatLit => Err(Unmodelled("float literal"))
    case StringLit => Ok(PushNew(st, NewString(st.heap, Trim(text, '"'))))
    case CharLit => Ok(PushNew(st, NewString(st.heap, Trim(text, '\''))))
    case ImagLit => Ok(st)
  }

  /** A slice bound: nil when absent. */
  function EvalOptional(st: State, e: Option<Expr>, fuel: nat): (r: Result<(State, Ref), Fault>)
    ensures r.Ok? ==> Keeps(st, r.value.0)
    decreases fuel, 1
  {
    match e
    case None => Ok((st, Nil))
    case Some(x) =>
      var s1 :- EvalExpr(st, x, fuel);
      PopVal(s1)
  }

  /** Evaluates each expression and pops its value, left to right. */
  function EvalEach(st: State, es: seq<Expr>, fuel: nat): (r: Result<(State, seq<Ref>), Fault>)
    ensures r.Ok? ==> Keeps(st, r.value.0) && |r.value.1| == |es|
    decreases fuel, 1, |es|
  {
    if |es| == 0 then Ok((st, []))
    else
      var s1 :- EvalExpr(st, es[0], fuel);
      var p :- PopVal(s1);
      var rest :- EvalEach(p.0, es[1..], fuel);
      KeepsTransitive(st, p.0, rest.0);
      Ok((rest.0, [p.1] + rest.1))
  }

  /** `VisitDictExpr`: each entry is keyed by its key's hash code; a later key wins. */
  function EvalFields(st: State, fields: seq<Field>, acc: Props, fuel: nat): (r: Result<(State, Props), Fault>)
    ensures r.Ok? ==> Keeps(st, r.value.0)
    decreases fuel, 1, |fields|
  {
    if |fields| == 0 then Ok((st, acc))
    else
      var s1 :- EvalExpr(st, fields[0].name, fuel);
      var k :- PopVal(s1);
      var s2 :- EvalExpr(k.0, fields[0].value, fuel);
      var v :- PopVal(s2);
      var key :- HashCode(v.0.heap, k.1);
      KeepsTransitive(st, k.0, v.0);
      var rest :- EvalFields(v.0, fields[1..], acc[key := v.1], fuel);
      KeepsTransitive(st, v.0, rest.0);
      Ok(rest)
  }

  /**
   * `VisitCallExpr`.  A name bound to nothing calls the registry builtin of
   * that name, if any; otherwise the callee is evaluated and must be a
   * function: a bound method or builtin receives its evaluated arguments
   * through `__call__`, a user function runs its body in a new frame.
   */
  function EvalCall(st: State, fun: Expr, args: seq<Expr>, fuel: nat): (r: Result<State, Fault>)
    ensures r.Ok? ==> Keeps(st, r.value)
    decreases fuel, 0
  {
    if fuel == 0 then Err(OutOfFuel)
    else if fun.Ident? && !Valid(st.heap, LookUp(st.env, fun.name).val) then
      if fun.name in Builtins then
        var made := NewFunc(st.heap, fun.name, None);
        CallNative(st.(heap := made.0), made.1, args, fuel - 1)
      else Ok(st)
    else
      var s1 :- EvalExpr(st, fun, fuel - 1);
      var p :- PopVal(s1);
      var res :- CallValue(p.0, p.1, args, fuel - 1);
      KeepsTransitive(st, p.0, res);
      Ok(res)
  }

  /** Calls an evaluated callee, which must be a function object. */
  function CallValue(st: State, f: Ref, args: seq<Expr>, fuel: nat): (r: Result<State, Fault>)
    ensures r.Ok? ==> Keeps(st, r.value)
    decreases fuel, 1
  {
    if !(Valid(st.heap, f) && At(st.heap, f).FuncObj?) then Err(TypeAssertion("function"))
    else if At(st.heap, f).isBuiltin then CallNative(st, f, args, fuel)
    else match At(st.heap, f).decl
      case None => Err(NilDereference)
      case Some(decl) => CallUser(st, decl, args, fuel)
  }

  /** A builtin or bound method: arguments, a frame, `__call__`, then every result pushed. */
  function CallNative(st: State, f: Ref, args: seq<Expr>, fuel: nat): (r: Result<State, Fault>)
    ensures r.Ok? ==> Keeps(st, r.value)
    decreases fuel, 0
  {
    if fuel == 0 then Err(OutOfFuel)
    else
      var a :- EvalEach(st, args, fuel - 1);
      var s1 := a.0.(env := NewEnv(a.0.env));
      var sent :- Send(s1, f, CallMsg, a.1);
      ExtendsTransitive(st.heap, a.0.heap, sent.0.heap);
      Ok(PushAll(sent.0.(env := Outer(sent.0.env)), sent.1))
  }

  /**
   * A user function: the callee becomes the current function, a frame is
   * pushed and the parameters bound positionally as each argument is
   * evaluated; the return flag is cleared before and after the body, and
   * the caller's function and frame are restored.
   */
  function CallUser(st: State, decl: FuncDecl, args: seq<Expr>, fuel: nat): (r: Result<State, Fault>)
    ensures r.Ok? ==> Keeps(st, r.value) && !r.value.needReturn
    decreases fuel, 0
  {
    if fuel == 0 then Err(OutOfFuel)
    else
      var s1 := st.(fun := Some(decl), env := NewEnv(st.env));
      var s2 :- BindArgs(s1, decl.params, args, fuel - 1);
      var s3 :- ExecBlock(s2.(needReturn := false), decl.body, fuel - 1);
      ExtendsTransitive(st.heap, s2.heap, s3.heap);
      Ok(s3.(needReturn := false, fun := st.fun, env := Outer(s3.env)))
  }

  /** `self.E.Put(fnDecl.Args[i].Name, ...)` for each argument in turn. */
  function BindArgs(st: State, params: seq<string>, args: seq<Expr>, fuel: nat): (r: Result<State, Fault>)
    requires |st.env| > 0
    ensures |args| > |params| ==> r.Err?
    ensures r.Ok? ==> Keeps(st, r.value)
    ensures r.Ok? ==> forall j :: 0 <= j < |args| ==> params[j] in r.value.env[|r.value.env| - 1]
    decreases fuel, 1, |args|
  {
    if |args| == 0 then Ok(st)
    else
      var s1 :- EvalExpr(st, args[0], fuel);
      var p :- PopVal(s1);
      if |params| == 0 then Err(IndexOutOfRange)
      else
        var s2 := p.0.(env := Put(p.0.env, params[0], p.1));
        var rest :- BindArgs(s2, params[1..], args[1..], fuel);
        KeepsTransitive(st, s2, rest);
        assert params[0] in rest.env[|rest.env| - 1];
        assert forall j :: 1 <= j < |args| ==> params[j] == params[1..][j - 1];
        Ok(rest)
  }

  function ExecStmt(st: State, s: Stmt, fuel: nat): (r: Result<State, Fault>)
    ensures r.Ok? ==> Keeps(st, r.value)
    decreases fuel, 0
  {
    if fuel == 0 then Err(OutOfFuel)
    else match s
      case ExprStmt(x) => EvalExpr(st, x, fuel - 1)
      case IncDec(x, tok) => ExecIncDec(st, x, tok, fuel - 1)
      case AssignStmt(lhs, tok, rhs) => ExecAssign(st, lhs, tok, rhs, fuel - 1)
      case Return(results) =>
        var a :- EvalResults(st, results, fuel - 1);
        Ok(a.(needReturn := true))
      case Branch(tok) =>
        if tok == Break then Ok(st.(needBreak := true))
        else if tok == Continue then Ok(st.(needContinue := true))
        else Ok(st)
      case Block(list) => ExecBlock(st, list, fuel - 1)
      case If(test, body, elseBranch) => ExecIf(st, test, body, elseBranch, fuel - 1)
      case For(init, cond, post, body) =>
        var s1 :- ExecOptional(st, init, fuel - 1);
        ForLoop(s1, cond, post, body, fuel - 1)
      case Range(keyValue, x, body) => ExecRange(st, keyValue, x, body, fuel - 1)
  }

  /** `VisitIncDecStmt`: `++` and `--` send `__inc__` and `__dec__`, whose results are dropped. */
  function ExecIncDec(st: State, x: Expr, tok: Token, fuel: nat): (r: Result<State, Fault>)
    ensures r.Ok? ==> Keeps(st, r.value)
    decreases fuel, 1
  {
    var s1 :- EvalExpr(st, x, fuel);
    var p :- PopVal(s1);
    if tok == Inc then
      var sent :- Send(p.0, p.1, "__inc__", []);
      Ok(sent.0)
    else if tok == Dec then
      var sent :- Send(p.0, p.1, "__dec__", []);
      Ok(sent.0)
    else Ok(p.0)
  }

  /** `VisitIfStmt`: the test must be a boolean; the else branch is optional. */
  function ExecIf(st: State, test: Expr, body: seq<Stmt>, elseBranch: Option<Stmt>, fuel: nat): (r: Result<State, Fault>)
    ensures r.Ok? ==> Keeps(st, r.value)
    decreases fuel, 1
  {
    var s1 :- EvalExpr(st, test, fuel);
    var p :- PopVal(s1);
    var c :- BoolOf(p.0.heap, p.1);
    if c then ExecBlock(p.0, body, fuel)
    else match elseBranch
      case Some(e) => ExecStmt(p.0, e, fuel)
      case None => Ok(p.0)
  }

  /** `VisitReturnStmt`: the results stay on the stack for the caller. */
  function EvalResults(st: State, es: seq<Expr>, fuel: nat): (r: Result<State, Fault>)
    ensures r.Ok? ==> Keeps(st, r.value)
    decreases fuel, 1, |es|
  {
    if |es| == 0 then Ok(st)
    else
      var s1 :- EvalExpr(st, es[0], fuel);
      var rest :- EvalResults(s1, es[1..], fuel);
      KeepsTransitive(st, s1, rest);
      Ok(rest)
  }

  function ExecOptional(st: State, s: Option<Stmt>, fuel: nat): (r: Result<State, Fault>)
    ensures r.Ok? ==> Keeps(st, r.value)
    decreases fuel, 1
  {
    match s
    case None => Ok(st)
    case Some(x) => ExecStmt(st, x, fuel)
  }

  /** `VisitAssignStmt`: target i takes right-hand side i, evaluated just before it. */
  function ExecAssign(st: State, lhs: seq<Expr>, tok: Token, rhs: seq<Expr>, fuel: nat): (r: Result<State, Fault>)
    ensures |rhs| < |lhs| ==> r.Err?
    ensures r.Ok? ==> Keeps(st, r.value)
    decreases fuel, 1, |lhs|
  {
    if |lhs| == 0 then Ok(st)
    else if |rhs| == 0 then Err(IndexOutOfRange)
    else
      var s1 :- EvalExpr(st, rhs[0], fuel);
      var p :- PopVal(s1);
      var s2 :- AssignTo(p.0, lhs[0], tok, p.1, fuel);
      var rest :- ExecAssign(s2, lhs[1..], tok, rhs[1..], fuel);
      KeepsTransitive(st, p.0, s2);
      KeepsTransitive(st, s2, rest);
      Ok(rest)
  }

  /** One target of an assignment; `=` stores, the compound tokens send their message. */
  function AssignTo(st: State, target: Expr, tok: Token, v: Ref, fuel: nat): (r: Result<State, Fault>)
    ensures r.Ok? ==> Keeps(st, r.value)
    decreases fuel, 0
  {
    if fuel == 0 then Err(OutOfFuel)
    else match target
      case Ident(name) =>
        if tok == Assign then AssignIdent(st, name, v)
        else
          var cur := LookUp(st.env, name).val;
          if !Valid(st.heap, cur) then Err(TypeAssertion("Object"))
          else
            var sent :- Send(st, cur, OpMessage(tok), [v]);
            Ok(sent.0)
      case Index(x, index) => AssignIndex(st, x, index, tok, v, fuel - 1)
      case Selector(x, sel) => AssignSelector(st, x, sel, tok, v, fuel - 1)
      case _ => Ok(st)
  }

  /** `a[i] = v` sends `__set_index__`; `a[i] op= v` sends the operator to the element. */
  function AssignIndex(st: State, x: Expr, index: Expr, tok: Token, v: Ref, fuel: nat): (r: Result<State, Fault>)
    ensures r.Ok? ==> Keeps(st, r.value)
    decreases fuel, 1
  {
    var s1 :- EvalExpr(st, x, fuel);
    var p :- PopVal(s1);
    var s2 :- EvalExpr(p.0, index, fuel);
    var q :- PopVal(s2);
    KeepsTransitive(st, p.0, q.0);
    if tok == Assign then
      var sent :- Send(q.0, p.1, "__set_index__", [q.1, v]);
      Ok(sent.0)
    else
      var sent :- UpdateThrough(q.0, p.1, "__get_index__", [q.1], OpMessage(tok), v);
      KeepsTransitive(st, q.0, sent);
      Ok(sent)
  }

  /** `o.f = v` sends `__set_property__`; `o.f op= v` sends the operator to the property. */
  function AssignSelector(st: State, x: Expr, sel: string, tok: Token, v: Ref, fuel: nat): (r: Result<State, Fault>)
    ensures r.Ok? ==> Keeps(st, r.value)
    decreases fuel, 1
  {
    var s1 :- EvalExpr(st, x, fuel);
    var p :- PopVal(s1);
    var made := NewString(p.0.heap, sel);
    var s2 := p.0.(heap := made.0);
    ExtendsTransitive(st.heap, p.0.heap, made.0);
    if tok == Assign then
      var sent :- Send(s2, p.1, SetPropertyMsg, [made.1, v]);
      Ok(sent.0)
    else
      var sent :- UpdateThrough(s2, p.1, GetPropertyMsg, [made.1], OpMessage(tok), v);
      KeepsTransitive(st, s2, sent);
      Ok(sent)
  }

  /**
   * `rets := obj.Dispatch(get, args...); rets[0].Dispatch(op, v)`: a compound
   * assignment through an element or a field sends the operator to the value
   * read, so only the heap changes.
   */
  function UpdateThrough(st: State, obj: Ref, get: string, args: seq<Ref>, op: string, v: Ref): (r: Result<State, Fault>)
    ensures r.Ok? ==> Keeps(st, r.value) && r.value == st.(heap := r.value.heap)
  {
    var got :- Send(st, obj, get, args);
    var target :- First(got.1, get);
    var sent :- Send(got.0, target, op, [v]);
    KeepsTransitive(st, got.0, sent.0);
    Ok(sent.0)
  }

  /** `VisitBlockStmt`: the statements run in a frame of their own, dropped afterwards. */
  function ExecBlock(st: State, list: seq<Stmt>, fuel: nat): (r: Result<State, Fault>)
    ensures r.Ok? ==> Keeps(st, r.value)
    ensures r.Ok? ==> forall i :: 0 <= i < |st.env| ==> r.value.env[i].Keys == st.env[i].Keys
    decreases fuel, 0
  {
    if fuel == 0 then Err(OutOfFuel)
    else
      var s1 :- ExecList(st.(env := NewEnv(st.env)), list, fuel - 1);
      Ok(s1.(env := Outer(s1.env)))
  }

  /**
   * The statement loop of `VisitBlockStmt`: it stops before a statement once
   * a return is pending, or, inside a loop, once a break or continue is.
   */
  function ExecList(st: State, list: seq<Stmt>, fuel: nat): (r: Result<State, Fault>)
    ensures r.Ok? ==> Keeps(st, r.value)
    decreases fuel, 1, |list|
  {
    if |list| == 0 then Ok(st)
    else if st.needReturn then Ok(st)
    else if st.loopDepth > 0 && st.needBreak then Ok(st)
    else if st.loopDepth > 0 && st.needContinue then Ok(st)
    else
      var s1 :- ExecStmt(st, list[0], fuel);
      var rest :- ExecList(s1, list[1..], fuel);
      KeepsTransitive(st, s1, rest);
      Ok(rest)
  }

  /**
   * The loop of `VisitForStmt`: test, body one loop level deeper, then the
   * pending flags: a return ends the loop, a break ends it and is consumed,
   * a continue is consumed; then the post statement.
   */
  function ForLoop(st: State, cond: Option<Expr>, post: Option<Stmt>, body: seq<Stmt>, fuel: nat): (r: Result<State, Fault>)
    ensures r.Ok? ==> Keeps(st, r.value)
    decreases fuel, 0
  {
    if fuel == 0 then Err(OutOfFuel)
    else if cond.None? then Err(NilDereference)
    else
      var s1 :- EvalExpr(st, cond.value, fuel - 1);
      var p :- PopVal(s1);
      var c :- BoolOf(p.0.heap, p.1);
      if !c then Ok(p.0)
      else
        var s2 :- LoopBody(p.0, body, fuel - 1);
        var rest :- ForNext(s2, cond, post, body, fuel - 1);
        KeepsTransitive(st, p.0, s2);
        KeepsTransitive(st, s2, rest);
        Ok(rest)
  }

  /** The body of a loop, run as a block one loop level deeper. */
  function LoopBody(st: State, body: seq<Stmt>, fuel: nat): (r: Result<State, Fault>)
    ensures r.Ok? ==> Keeps(st, r.value)
    decreases fuel, 1
  {
    var s1 :- ExecBlock(st.(loopDepth := st.loopDepth + 1), body, fuel);
    Ok(s1.(loopDepth := s1.loopDepth - 1))
  }

  /** After a turn of a for loop: the pending flags, then the post statement and the next test. */
  function ForNext(st: State, cond: Option<Expr>, post: Option<Stmt>, body: seq<Stmt>, fuel: nat): (r: Result<State, Fault>)
    ensures r.Ok? ==> Keeps(st, r.value)
    decreases fuel, 2
  {
    if st.needReturn then Ok(st)
    else if st.needBreak then Ok(st.(needBreak := false))
    else
      var s1 :- ExecOptional(st.(needContinue := false), post, fuel);
      var rest :- ForLoop(s1, cond, post, body, fuel);
      KeepsTransitive(st, s1, rest);
      Ok(rest)
  }

  /** The elements a range statement walks: an array's or a set's, nothing otherwise. */
  function RangeElems(h: Heap, r: Ref): seq<Ref>
  {
    if Valid(h, r) && (At(h, r).ArrayObj? || At(h, r).SetObj?) then At(h, r).vals else []
  }

  /**
   * `VisitRangeStmt`: the key and value names are bound, in one frame
   * shared by all iterations, to the index and the element.
   */
  function ExecRange(st: State, keyValue: seq<Expr>, x: Expr, body: seq<Stmt>, fuel: nat): (r: Result<State, Fault>)
    ensures r.Ok? ==> Keeps(st, r.value)
    decreases fuel, 0
  {
    if fuel == 0 then Err(OutOfFuel)
    else
      var s1 :- EvalExpr(st, x, fuel - 1);
      var p :- PopVal(s1);
      if |keyValue| == 0 then Err(IndexOutOfRange)
      else if !keyValue[0].Ident? then Err(TypeAssertion("identifier"))
      else if |keyValue| == 1 then Err(IndexOutOfRange)
      else if !keyValue[1].Ident? then Err(TypeAssertion("identifier"))
      else
        var s2 := p.0.(env := NewEnv(p.0.env));
        var elems := RangeElems(s2.heap, p.1);
        var s3 :- RangeLoop(s2, elems, 0, keyValue[0].name, keyValue[1].name, body, fuel - 1);
        ExtendsTransitive(st.heap, p.0.heap, s3.heap);
        Ok(s3.(env := Outer(s3.env)))
  }

  /** Binds the key to a new integer i and the value to the element, in the current frame. */
  function BindIteration(st: State, i: Int64, key: string, val: string, elem: Ref): (r: State)
    requires |st.env| > 0
    ensures Keeps(st, r)
    ensures r == st.(heap := r.heap, env := r.env)
  {
    var made := NewInteger(st.heap, i);
    st.(heap := made.0, env := Put(Put(st.env, key, made.1), val, elem))
  }

  /** Iterations i, i+1, ... of a range statement over the elements seen at its start. */
  function RangeLoop(st: State, elems: seq<Ref>, i: nat, key: string, val: string, body: seq<Stmt>, fuel: nat): (r: Result<State, Fault>)
    requires |st.env| > 0
    ensures r.Ok? ==> Keeps(st, r.value)
    decreases fuel, 0
  {
    if |elems| <= i then Ok(st)
    else if fuel == 0 then Err(OutOfFuel)
    else if !InInt64(i) then Err(Unmodelled("index beyond the int range"))
    else
      var s1 := BindIteration(st, i, key, val, elems[i]);
      var s2 :- LoopBody(s1, body, fuel - 1);
      var rest :- RangeNext(s2, elems, i, key, val, body, fuel - 1);
      KeepsTransitive(s1, s2, rest);
      KeepsTransitive(st, s1, rest);
      Ok(rest)
  }

  /** After turn i of a range loop: the pending flags, then turn i + 1. */
  function RangeNext(st: State, elems: seq<Ref>, i: nat, key: string, val: string, body: seq<Stmt>, fuel: nat): (r: Result<State, Fault>)
    requires |st.env| > 0
    ensures r.Ok? ==> Keeps(st, r.value)
    decreases fuel, 1
  {
    if st.needReturn then Ok(st)
    else if st.needBreak then Ok(st.(needBreak := false))
    else RangeLoop(st.(needContinue := false), elems, i + 1, key, val, body, fuel)
  }
}
