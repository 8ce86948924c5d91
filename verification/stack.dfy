/**
 * The evaluator's operand stack (comp/eval.go `Stack`): a slice that only
 * grows, and a cursor; slots above the cursor are reused by later pushes.
 */
module OperandStack {
  import opened Wrappers
  import opened Faults
  import opened RtObjects

  datatype Stack = Stack(cur: nat, vals: seq<Ref>)

  type ValidStack = s: Stack | s.cur <= |s.vals| witness Stack(0, [])

  /** The values the stack holds, bottom first. */
  function Live(s: ValidStack): seq<Ref>
  {
    s.vals[..s.cur]
  }

  const Empty: ValidStack := Stack(0, [])

  function Push(s: ValidStack, x: Ref): (s': ValidStack)
    ensures Live(s') == Live(s) + [x]
  {
    var vals := if |s.vals| <= s.cur then s.vals + [x] else s.vals[s.cur := x];
    assert vals[..s.cur] == s.vals[..s.cur];
    Stack(s.cur + 1, vals)
  }

  /** Pops the top value; popping the empty stack fails. */
  function Pop(s: ValidStack): (r: Result<(ValidStack, Ref), Fault>)
    ensures s.cur == 0 <==> r.Err?
    ensures r.Err? ==> r.error == EmptyStack
    ensures r.Ok? ==> Live(s) == Live(r.value.0) + [r.value.1]
  {
    if s.cur == 0 then Err(EmptyStack)
    else
      var s': ValidStack := Stack(s.cur - 1, s.vals);
      assert Live(s) == Live(s') + [s.vals[s.cur - 1]];
      Ok((s', s.vals[s.cur - 1]))
  }

  /** Push then pop returns the pushed value and the stack as it was. */
  lemma PushPop(s: ValidStack, x: Ref)
    ensures Pop(Push(s, x)).Ok?
    ensures Pop(Push(s, x)).value.1 == x
    ensures Live(Pop(Push(s, x)).value.0) == Live(s)
  {
    var r := Pop(Push(s, x));
    assert Live(r.value.0) + [r.value.1] == Live(s) + [x];
    assert Live(r.value.0) == (Live(r.value.0) + [r.value.1])[..|Live(s)|];
  }
}
