# doubi runtime core, modelled in Dafny

doubi is a small dynamically typed scripting language written in Go. This
project models three parts of it:

- **The runtime value model (rt/object.go).** Every operation is a message
  name sent to a value through `Dispatch`. Each value owns a property table,
  which holds user fields, the built-in methods pre-registered on integers
  and arrays, and dict entries keyed by `HashCode()`. Integers change in place
  for `++`, `--` and the compound assignments, so every alias sees the change.
- **The tree-walking evaluator (comp/eval.go).** Its state is:
  - an operand stack;
  - a chain of scope frames;
  - the current function;
  - a loop depth;
  - the flags that carry `return`, `break` and `continue`.

  The evaluator works against the runtime value model: it sends its messages
  through rt's `Dispatch` and uses rt's bool and function objects.
- **The older value model (comp/object.go).** It has no property tables. Its
  integer binary operators, string concatenation, array indexing, display
  forms and builtin call are modelled.

## How the model is built

**Objects and references.**
- Objects live in a heap, `seq<Obj>`. A reference is a positive index into it.
- Reference 0, and any reference outside the heap, stands for Go's `nil`.
  A message sent to it is `Err(NilDereference)`.
- Every Go panic becomes an explicit `Err` carrying a `Fault`. This covers a
  failed type assertion, an index out of range, and `rets[0]` on an empty
  result list.

**Integers.**
- Go's `int` is `Int64`. `++`, `--` and the compound assignments wrap around
  explicitly.
- The binary operators go through `float64` in Go. The model computes them
  exactly only while every operand and result lies strictly inside ±2^53;
  outside that range the answer is `Err(OutsideExactFloatRange)`.
- Division and remainder truncate toward zero, as Go does. Dafny's own `/`
  and `%` are Euclidean, so the model does not use them here.

**Scopes.**
- The scope chain is a sequence of frames, current frame last.
- `LookUp` returns the value and the index of the frame that owns it.
- A name bound to `nil` counts as unbound, as the Go code's `val == nil` test
  does.

**Termination.**
- Every visitor takes a fuel argument. Running out of fuel is `Err(OutOfFuel)`.
- Display forms recurse through the heap with a depth bound of one more than
  the heap size. A cyclic array, on which Go's recursion never ends, gives
  `Err(StackOverflow)`.

Modules, one per file:
- `Wrappers`, `Faults`, `Ints`, `Strings`: the shared vocabulary.
- `Ast`: the syntax the evaluator walks.
- `RtObjects` and `RtDispatch`: the runtime value model.
- `RtProps`: properties of the runtime value model.
- `Env`: the scope chain.
- `OperandStack`: the evaluator's operand stack.
- `Eval`: the evaluator.
- `EvalProps`: properties of the evaluator.
- `CompObjects`: the older value model and its properties.

### Behaviour modelled as written

These follow the Go code as written, including behaviour a reader may not
expect:

- **`&^=` does nothing.** The evaluator sends `__&^=__`, but the integer's
  in-place table spells it `__&^___`. The message falls through, yields
  nothing, and the receiver keeps its value.
- **`a &^ b` on integers fails.** The integer knows no `__and_not__`, and the
  evaluator then takes element 0 of an empty result list.
- **`abs` of the least int stays negative.** Go's negation wraps around.
- **Calling an unknown name does nothing.** A call to an unbound name that is
  not a builtin evaluates nothing, not even its arguments.
- **Arguments are evaluated in the callee's frame.** Each argument is
  evaluated after the parameters before it are bound, in the callee's new
  frame. So for parameters `(a, b)` the call `f(x, a)` binds `b` to the
  value of `x`, not to the caller's `a`.
- **A user function runs at the caller's loop depth.** A `break` inside a
  function body therefore stops the caller's statement lists.
- **Integers in the older model echo their argument.** Any message that is
  not one of the ten operators answers with the argument's value.
  - The answer is a float when the argument is a float.
  - It is 0 when the argument is not a number.

## Model

| member | source | states |
|---|---|---|
| RtObjects.Alloc | rt/object.go:49-52 | a new object gets a reference not in use before, and every existing object is unchanged |
| RtObjects.Store | rt/object.go:19-21 | an in-place update replaces exactly one object, so every holder of the reference sees it |
| RtObjects.SetProp | rt/object.go:19-21 | setting a property binds the key in the table and keeps every other key |
| RtObjects.NewInteger | rt/object.go:135-140 | a new integer carries exactly the `times` and `abs` properties, each a built-in method bound to the integer itself |
| RtObjects.NewArray | rt/object.go:394-400 | a new array carries exactly the `append` and `length` properties, each bound to the array itself, and holds the given elements |
| RtObjects.ExtendsTransitive | rt/object.go:10-15 | once created, objects keep their type across any sequence of messages |
| RtObjects.DisplayAll | rt/object.go:410-421 | the element display forms come back in element order, one per element |
| RtDispatch.Dispatch | rt/object.go:10-15 | a message never changes the type of an existing object and never shrinks the heap |
| RtDispatch.IntCompound | rt/object.go:205-237 | exactly the compound-assignment messages the integer table knows give an in-place result |
| RtDispatch.IntCompare | rt/object.go:259-282 | exactly the six comparison messages give a boolean |
| Ints.IntBinop | rt/object.go:239-258 | exactly the ten arithmetic and bitwise messages give a result |
| Ints.TruncDivRem | rt/object.go:245-248 | Go's truncating division satisfies a == b*q + r, with \|r\| < \|b\| and r carrying the sign of a |
| Ints.Wrap64 | rt/object.go:183-193 | the wrapped result is congruent to the exact one modulo 2^64 and lies in the int range |
| RtProps.GetPropertyOnAnyValue | rt/object.go:27-32 | `__get_property__` is answered before any type-specific message on every variant: the table entry or nil, nothing changed |
| RtProps.SetThenGetProperty | rt/object.go:33-38 | after `__set_property__(k, v)`, reading k gives v; other keys and other objects are unchanged; no results |
| RtProps.IntAddSubMul | rt/object.go:239-244 | sum, difference and product of two integers are a new exact integer inside 2^53, and the receiver is unchanged |
| RtProps.IntQuoRem | rt/object.go:245-248 | quotient and remainder satisfy Go's division identity; a zero divisor is an error |
| RtProps.IntQuo | rt/object.go:245-246 | `__quo__` by a zero integer fails; otherwise it returns one new integer, the quotient rounded toward zero, which fits in 64 bits |
| RtProps.IntRem | rt/object.go:247-248 | `__rem__` by a zero integer fails; otherwise it returns one new integer with Go's remainder, whose sign follows the dividend |
| RtProps.IntBinopDispatch | rt/object.go:239-258 | a message the arithmetic table answers with an integer makes the receiver return exactly one new integer holding that value |
| RtProps.IntComparisons | rt/object.go:259-282 | the six comparisons return a bool that agrees with the mathematical order |
| RtProps.IntCompareDispatch | rt/object.go:259-282 | a comparison message sent to an integer returns exactly one new bool, the outcome of comparing the two values |
| RtProps.IncDecInPlace | rt/object.go:183-193 | `__inc__` and `__dec__` change the receiver by one with wrap-around, in place, with no results |
| RtProps.CompoundAssignInPlace | rt/object.go:205-228 | each compound assignment updates the receiver in place with the Go int result and touches no other object |
| RtProps.ShiftAssignInPlace | rt/object.go:229-234 | a shift-assign by an in-range count shifts the receiver in place |
| RtProps.AndNotIsUnhandled | rt/object.go:235-237 | `__&^=__` and `__and_not__` leave the integer as it was and return nothing |
| RtProps.AndNotUnderItsOwnName | rt/object.go:235-237 | the spelling `__&^___` does clear the argument's bits in place |
| RtProps.AbsIsFresh | rt/object.go:163-168 | `abs` returns a new integer holding \|v\| (wrapped for the least int) and leaves the receiver alone |
| RtProps.AppendInPlace | rt/object.go:460-462 | `append(x)` adds x at the end of the same array; earlier elements are unchanged |
| RtProps.LengthCounts | rt/object.go:463-465 | `length` returns a new integer equal to the element count |
| RtProps.BoundCallRedispatches | rt/object.go:570-578 | calling a bound built-in method is the same as sending its name to its receiver |
| RtProps.FreshArrayMethods | rt/object.go:394-400 | on a new array, calling its `append` property appends and calling its `length` property counts |
| RtProps.ArraySetThenGet | rt/object.go:436-443 | after `a[i] = v`, reading i gives v and every other index is unchanged; an index outside 0..len-1 is an error |
| RtProps.SliceDefaults | rt/object.go:444-459 | a slice is a new array of the elements [low, high); a nil low is 0 and a nil high is the length |
| RtProps.ArrayConcat | rt/object.go:430-433 | `+` on arrays is a new array holding the concatenation; neither operand changes |
| RtProps.StringConcat | rt/object.go:73-75 | string `+` is a new string: the receiver's text followed by the argument's display form |
| RtProps.DictIndexIsProperty | rt/object.go:627-630 | a dict index reads the property table under the key's hash code, so `d["a"]` and `d.a` reach the same entry |
| RtProps.DictIntStringKeysCollide | rt/object.go:58-60 | the integer 1 and the string "1" are the same dict key |
| RtProps.DictIntKeysDistinct | rt/object.go:146-148 | distinct integers are distinct dict keys |
| RtProps.DictSetThenGet | rt/object.go:631-635 | a dict index assignment followed by an index read gives the value stored |
| RtProps.UnknownMessageOnFunction | rt/object.go:563-581 | a message a function does not know returns nothing and changes nothing |
| RtProps.ArrayDisplay | rt/object.go:410-421 | an array displays as `[`, its elements' forms joined by commas, then `]` |
| Env.NewEnv | comp/eval.go:463-464 | a block's frame is a new empty frame chained under the current one |
| Env.PutAt | comp/eval.go:385-391 | `Put` rebinds the name in one frame and leaves the other frames alone |
| Env.LookUp | comp/eval.go:385 | the lookup finds the innermost frame binding the name; unbound names give nil |
| Env.NewEnvOuter | comp/eval.go:463-478 | leaving a frame restores the chain as it was before entering it |
| Env.LookUpAfterPut | comp/eval.go:386-387 | a name put in the current frame is found there with the value put |
| Env.LookUpAfterPutOther | comp/eval.go:220-221 | binding one name in the current frame leaves every other name's look-up unchanged |
| OperandStack.Push | comp/eval.go:24-31 | a push adds the value on top of the live values |
| OperandStack.Pop | comp/eval.go:33-39 | a pop on an empty stack fails; otherwise it removes and returns the top value |
| OperandStack.PushPop | comp/eval.go:24-39 | a push then a pop gives the pushed value and the stack as it was |
| Eval.ContainsString | comp/eval.go:363-372 | true exactly when the string occurs in the list |
| Eval.AssignIdent | comp/eval.go:383-391 | assignment to a name changes only the scope chain and keeps its depth |
| Eval.EvalExpr | comp/eval.go:64-93 | every expression keeps the scope chain, loop depth and current function, and never changes an object's type |
| Eval.EvalIdent | comp/eval.go:76-93 | reading a name keeps the evaluator's invariants |
| Eval.EvalBasicLit | comp/eval.go:95-122 | a literal keeps the evaluator's invariants |
| Eval.EvalSelector | comp/eval.go:130-138 | a selector keeps the evaluator's invariants |
| Eval.EvalIndex | comp/eval.go:140-149 | an index expression keeps the evaluator's invariants |
| Eval.EvalSlice | comp/eval.go:151-171 | a slice expression keeps the evaluator's invariants |
| Eval.EvalUnary | comp/eval.go:234-240 | a unary expression keeps the evaluator's invariants |
| Eval.EvalBinary | comp/eval.go:275-286 | a binary expression keeps the evaluator's invariants |
| Eval.EvalFuncLit | comp/eval.go:327-336 | a function literal keeps the evaluator's invariants |
| Eval.EvalEach | comp/eval.go:288-310 | evaluating a list of expressions gives one value per expression |
| Eval.EvalFields | comp/eval.go:312-325 | a dict literal's fields keep the evaluator's invariants |
| Eval.EvalCall | comp/eval.go:173-232 | a call keeps the evaluator's invariants |
| Eval.CallValue | comp/eval.go:197-231 | calling a function value keeps the evaluator's invariants |
| Eval.CallNative | comp/eval.go:184-195 | a builtin call keeps the evaluator's invariants: the frame it opens is discarded again |
| Eval.CallUser | comp/eval.go:214-230 | a user call restores the scope chain and the current function, and clears the return flag |
| Eval.BindArgs | comp/eval.go:219-222 | every parameter up to the number of arguments is bound in the new frame; more arguments than parameters is an error; the values bound are stated by EvalProps.BindNamedArgs |
| Eval.ExecStmt | comp/eval.go:340-461 | every statement keeps the evaluator's invariants |
| Eval.ExecIncDec | comp/eval.go:350-361 | `++` and `--` keep the evaluator's invariants |
| Eval.ExecIf | comp/eval.go:481-492 | an if statement keeps the evaluator's invariants |
| Eval.EvalResults | comp/eval.go:440-448 | a return statement's results keep the evaluator's invariants |
| Eval.ExecOptional | comp/eval.go:508-510 | an optional statement keeps the evaluator's invariants |
| Eval.ExecAssign | comp/eval.go:374-432 | an assignment with fewer right-hand values than targets is an error |
| Eval.AssignTo | comp/eval.go:382-429 | assigning to a target keeps the evaluator's invariants |
| Eval.AssignIndex | comp/eval.go:393-398 | index assignment keeps the evaluator's invariants |
| Eval.AssignSelector | comp/eval.go:399-403 | selector assignment keeps the evaluator's invariants |
| Eval.UpdateThrough | comp/eval.go:413-428 | for `a[i] op= v` and `a.f op= v`, fetching the target and sending it the operator changes only the heap and keeps the evaluator's invariants |
| Eval.ExecBlock | comp/eval.go:463-479 | a block leaves every frame with exactly the names it had before |
| Eval.ExecList | comp/eval.go:465-477 | a statement list keeps the evaluator's invariants |
| Eval.ForLoop | comp/eval.go:513-537 | a for loop keeps the evaluator's invariants, including its loop depth |
| Eval.LoopBody | comp/eval.go:520-522 | the body runs one loop level deeper and the level is restored |
| Eval.ForNext | comp/eval.go:524-536 | the flag handling after each turn keeps the evaluator's invariants |
| Eval.ExecRange | comp/eval.go:540-595 | a range loop restores the scope chain and the loop depth; the key must be an identifier before the value is looked at |
| Eval.BindIteration | comp/eval.go:551-553 | binding the key and value changes only the heap and the scope chain |
| Eval.RangeLoop | comp/eval.go:550-567 | the iterations keep the evaluator's invariants |
| Eval.RangeNext | comp/eval.go:558-567 | the flag handling after each iteration keeps the evaluator's invariants |
| EvalProps.AssignIdentReadBack | comp/eval.go:383-391 | after `name = v`, the name reads back as v |
| EvalProps.AssignIdentWritesOneFrame | comp/eval.go:383-391 | assignment writes exactly one frame: the current one, or the one that already binds the name |
| EvalProps.LocalNameShadows | comp/eval.go:388-389 | inside a function that declares the name local, an outer binding is shadowed, not overwritten |
| EvalProps.NonLocalWritesThrough | comp/eval.go:390-391 | a bound name that is not local is updated in the frame that owns it; no frame gains a name |
| EvalProps.BlockForgetsItsNames | comp/eval.go:463-479 | a name first bound inside a block is unbound again after it |
| EvalProps.PendingFlagStopsList | comp/eval.go:465-475 | a pending return stops every statement list; break and continue stop it only inside a loop |
| EvalProps.BreakOutsideLoopRunsOn | comp/eval.go:453-455 | outside a loop, the statements after a break still run |
| EvalProps.BreakInsideLoopSkipsRest | comp/eval.go:469-471 | inside a loop, the statements after a break are skipped |
| EvalProps.ForBreakEndsLoop | comp/eval.go:527-530 | when the body leaves a break pending, the loop's result is exactly the body's final state with the break cleared: no post statement and no further test run |
| EvalProps.ForContinueRunsPost | comp/eval.go:531-536 | a continue is cleared, the post statement still runs, and the condition is tested again |
| EvalProps.ForFalseConditionStops | comp/eval.go:514-518 | a false condition ends the loop without running the body or the post statement |
| EvalProps.ForWithoutCondition | comp/eval.go:514 | a for loop with no condition dereferences nil |
| EvalProps.OperatorTable | comp/eval.go:242-273 | arithmetic tokens send integer operator messages and comparisons send comparison messages; `&^` and `&^=` send messages nothing handles |
| EvalProps.IdentPushesBinding | comp/eval.go:76-93 | a bound name evaluates to its binding, pushed on the stack |
| EvalProps.BinaryOfNames | comp/eval.go:275-286 | `a OP b` evaluates the left operand first, sends the operator message to it with the right one, and pushes the first result |
| EvalProps.NamesPushedAndPopped | comp/eval.go:278-282 | evaluating two names pushes their bindings in order, and the two pops return the right one first and then the left one, leaving the stack as it was |
| EvalProps.AddOfIntegerNames | comp/eval.go:275-286 | `a + b` on two exact integers pushes a new integer holding the sum |
| EvalProps.AndNotOfIntegerNamesFails | comp/eval.go:284-285 | `a &^ b` on integers fails, because the message has no results |
| EvalProps.AndNotSendsNothing | comp/eval.go:284-285 | `&^` is sent as `__and_not__`, which an integer answers with no results and no change |
| EvalProps.AssignFromName | comp/eval.go:406-408 | in a one-target assignment, the right-hand value is evaluated, popped and handed to the target |
| EvalProps.AndNotAssignLeavesValue | comp/eval.go:410-412 | `a &^= b` leaves a's integer unchanged |
| EvalProps.AliasSeesCompoundAssign | comp/eval.go:410-412 | values are shared: when y and x are bound to the same object, after `x op= b` the name y reads exactly the object the operator left in place at x's reference, and no binding changes |
| EvalProps.CompoundAssignStmt | comp/eval.go:406-412 | `x op= b` evaluates b, sends the operator message to x's value, and changes nothing but the heap: the scopes and the stack are as before |
| EvalProps.CompoundAssignToName | comp/eval.go:410-412 | storing through `name op= v` sends the message to the object the name is bound to and rebinds nothing |
| EvalProps.AddAssignInPlace | rt/object.go:205-207 | `__+=__` on an integer overwrites the receiver itself with the wrapped sum |
| EvalProps.UnknownCallIsNoOp | comp/eval.go:181-196 | calling an unbound name that is not a builtin changes nothing |
| EvalProps.PrintCallLeavesNoResult | comp/eval.go:181-196 | `print()` returns nothing: the stack and the scope chain are as before |
| EvalProps.PrintOfNameLeavesNoResult | comp/eval.go:181-196 | `print(n)` with a bound name evaluates its argument and still leaves the stack and the scope chain as before |
| EvalProps.BindFrameAt | comp/eval.go:219-222 | after binding in turn, parameter j holds value j unless a later parameter has the same name |
| EvalProps.BindFrameOthers | comp/eval.go:219-222 | names that are not parameters keep their binding in the frame |
| EvalProps.BindNamedArgs | comp/eval.go:218-222 | with bound names as arguments, the callee's frame becomes exactly the reference binding of the parameters, in order, to the names' values; nothing but the frame changes |
| EvalProps.ParameterHoldsArgument | comp/eval.go:219-222 | positional binding: parameter j holds the value of the j-th argument |
| EvalProps.ArgumentReadsEarlierParameter | comp/eval.go:218-222 | arguments are evaluated in the callee's frame: for parameters (a, b), `f(x, a)` binds both a and b to x's value |
| EvalProps.EachOfOneName | comp/eval.go:185-188 | a one-argument list of a bound name evaluates to that name's value, with the stack as before |
| EvalProps.RangeBindsKeyAndValue | comp/eval.go:551-553 | each iteration binds the key to a new integer i and the value to element i, in the loop's frame |
| EvalProps.RangeBreakEndsLoop | comp/eval.go:551-567 | turn i runs the body with elems[i] bound; when it leaves a break pending, the loop's result is that state with the break cleared, and no later element is visited |
| EvalProps.RangeTurnMovesOn | comp/eval.go:551-570 | turn i runs the body with elems[i] bound; unless a return or a break is pending, the loop clears continue and goes on with element i + 1 in the same frame |
| CompObjects.Fresh | comp/object.go:49-52 | a new value is the only result and takes a reference not in use before |
| CompObjects.DisplayAll | comp/object.go:163-174 | the element forms come back in order; a failure is the failure of some element |
| CompObjects.Dispatch | comp/object.go:9-13 | a message never changes the type of an existing value and never shrinks the heap |
| CompObjects.StrDispatch | comp/object.go:34-41 | a string message keeps every existing value's type |
| CompObjects.IntDispatch | comp/object.go:62-103 | an integer message keeps every existing value's type |
| CompObjects.FloatDispatch | comp/object.go:124-146 | a float message keeps every existing value's type |
| CompObjects.ArrayDispatch | comp/object.go:176-189 | an array message keeps every existing value's type |
| CompObjects.IntegerResultFollowsArgument | comp/object.go:62-103 | every integer message answers with one new value, a float exactly when the argument is a float |
| CompObjects.IntegerArith | comp/object.go:75-80 | `__add__`, `__sub__` and `__mul__` of integers give the exact result inside 2^53 |
| CompObjects.IntegerBitwise | comp/object.go:85-90 | `__and__`, `__or__` and `__xor__` act on the 64-bit two's-complement forms |
| CompObjects.IntegerQuoRem | comp/object.go:81-84 | quotient and remainder satisfy Go's truncating division identity |
| CompObjects.UnknownMessageEchoesArgument | comp/object.go:66-72 | any other message answers with the argument's value: integer, float, or 0 |
| CompObjects.StringConcat | comp/object.go:34-41 | `__add__` on a string is a new string followed by the argument's display form |
| CompObjects.SilentMessages | comp/object.go:219-225 | sets, functions and an array's `__add__` return nothing and change nothing |
| CompObjects.ArraySetThenGet | comp/object.go:180-186 | after `a[i] = v`, reading i gives v, other indices are unchanged, and no other value changes |
| CompObjects.ArrayIndexFaults | comp/object.go:180-182 | a non-integer index, an index out of range, or a missing index is an error |
| CompObjects.IntegerDisplay | comp/object.go:58-60 | an integer displays in decimal, and the decimal form reads back as the same integer |
| CompObjects.AggregateDisplay | comp/object.go:163-174 | arrays display as `[`, the element forms joined by commas, then `]`; sets open with `#[` |
| CompObjects.DisplayAllOk | comp/object.go:166-171 | when every element displays, the parts are exactly the element forms |
| CompObjects.DisplayAllFirstError | comp/object.go:166-171 | elements are displayed in order and the first failure is the one reported |
| CompObjects.ArrayString | comp/object.go:163-174 | the display loop builds the same text as the display form |
| Strings.AtoiRoundTrip | comp/eval.go:99-105 | parsing an integer's decimal form gives the integer back |
| Strings.Bracketed | rt/object.go:410-421 | the display loop gives the opening text, the parts joined by commas, then `]` |

## Left out

- **Float arithmetic.** Float receivers in both value models are modelled only as far as their messages are routed. The same goes for the float formatting in `String()`.
  - Their arithmetic and comparisons give `Err(Unmodelled(...))`, because float64 rounding is not modelled.
  - An integer receiver with a float argument does compute a `real`, but rounding is ignored.
- **The `times` class method.** It runs a function body through the visitor, which is not part of this model. It yields no results.
- **I/O.** The `print` builtin's output, the `__add__` trace lines of arrays and sets, and the evaluator's `log`/`debug` output are left out. The result-dropping of builtin calls is modelled.
- **Process exit.** `fatal` and `os.Exit` become an `Err` fault instead of ending the process.
- **Goroutines.** `VisitGoStmt` starts one; unsynchronised concurrency is not modelled.
- **Empty visitors.** The Send, Switch, Select and CaseClause visitors do nothing and are not modelled.
- **Pointer keys.** The `%p` hash code of arrays, sets, dicts and functions is an opaque key built from the reference.
- **`DictObject.String`.** Its order depends on Go's map iteration order, so the display of a dict is `Err(Unmodelled(...))`.
- **Slices.** `__slice__`, `__add__` and `__+=__` on arrays produce fresh element sequences. Go's backing-array sharing and capacity are not modelled.
- **Shifts.** Shifting a negative receiver through `uint`, and a negative shift count, give `Err(Unmodelled(...))`.
- **Env internals.** The `Env` package is not part of this model. Only its push, put, look-up and pop behaviour, as the evaluator uses it, is modelled.
- **Re-dispatched `__call__`.** A bound method whose name is `__call__` would re-dispatch `__call__` on its receiver. That gives `Err(Unmodelled(...))`.
- **Fuel.** The evaluator's fuel bound means a program that would not terminate gives `Err(OutOfFuel)`, not divergence.
- **Array length.** `length` of an array longer than the int range is not modelled.
- RangeLoop: walks a snapshot of the elements taken when the loop starts. Go's range reads each element from the live backing array, so a write to a later element during the loop is seen in Go but not in the model.
- Eval.EvalBasicLit: a float literal gives `Err(Unmodelled(...))`, because parsing decimal text into a float64 is not modelled. Go parses it and pushes a new float. As a result, the evaluator never creates a float, so the integer paths that take a float argument are reachable only through the value models, not from program text.
- Ints.IntBinop: an integer `__quo__` by zero is `Err(DivideByZero)`. In Go it is a float64 division by zero, whose conversion back to int is platform-defined.
