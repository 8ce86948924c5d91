/**
 * The chain of scope frames the evaluator uses.  Frames are created
 * strictly nested and discarded in reverse order by this evaluator, so the
 * chain is a stack: the outermost frame first, the current frame last.  A
 * frame is identified by its position in the chain.
 */
module Env {
  import opened RtObjects

  type Frame = map<string, Ref>

  type Env = seq<Frame>

  /** `NewEnv(e)`: a fresh, empty frame chained under the current one. */
  function NewEnv(e: Env): (e': Env)
    ensures |e'| == |e| + 1 && e'[..|e|] == e && e'[|e|] == map[]
  {
    e + [map[]]
  }

  /** `e.Outer`: back to the enclosing frame. */
  function Outer(e: Env): Env
    requires |e| > 0
  {
    e[..|e| - 1]
  }

  /** `Put` on frame i: bind or rebind the name there. */
  function PutAt(e: Env, i: nat, name: string, v: Ref): (e': Env)
    requires i < |e|
    ensures |e'| == |e| && e'[i] == e[i][name := v]
    ensures forall j :: 0 <= j < |e| && j != i ==> e'[j] == e[j]
  {
    var f: Frame := e[i][name := v];
    e[i := f]
  }

  /** `Put` on the current frame. */
  function Put(e: Env, name: string, v: Ref): Env
    requires |e| > 0
  {
    PutAt(e, |e| - 1, name, v)
  }

  /** A lookup result: the value and the frame that owns it (-1, nil: unbound). */
  datatype Found = Found(val: Ref, owner: int)

  /** `LookUp`: the innermost frame binding the name, searching outward. */
  function LookUp(e: Env, name: string): (f: Found)
    ensures -1 <= f.owner < |e|
    ensures f.owner == -1 ==> f.val == Nil && forall i :: 0 <= i < |e| ==> name !in e[i]
    ensures f.owner >= 0 ==> name in e[f.owner] && f.val == e[f.owner][name]
    ensures forall i :: f.owner < i < |e| ==> name !in e[i]
  {
    if |e| == 0 then Found(Nil, -1)
    else if name in e[|e| - 1] then Found(e[|e| - 1][name], |e| - 1)
    else LookUp(e[..|e| - 1], name)
  }

  /** Pushing a frame and popping it gives the chain back. */
  lemma NewEnvOuter(e: Env)
    ensures Outer(NewEnv(e)) == e
  {
  }

  /** A name bound in the current frame is found there. */
  lemma LookUpAfterPut(e: Env, name: string, v: Ref)
    requires |e| > 0
    ensures LookUp(Put(e, name, v), name) == Found(v, |e| - 1)
  {
  }

  /** Binding one name in the current frame leaves every other name's look-up as it was. */
  lemma LookUpAfterPutOther(e: Env, name: string, v: Ref, other: string)
    requires |e| > 0 && other != name
    ensures LookUp(Put(e, name, v), other) == LookUp(e, other)
  {
    assert Put(e, name, v)[..|e| - 1] == e[..|e| - 1];
  }
}
