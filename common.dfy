/** Value types shared by every part of the model: a JavaScript value that may be
    absent, the outcome of a call that may throw, and order-preserving filtering. */
module Common {

  /** `undefined`/`null` versus a present value. */
  datatype Option<+T> = None | Some(value: T)

  /** A call that either returns a value or throws an error carrying a message. */
  datatype Outcome<+T> = Ok(value: T) | Err(msg: string)

  /** Concatenation is associative; stated once so that callers need not re-derive it
      element by element. */
  lemma AppendAssoc<T>(a: seq<T>, b: seq<T>, c: seq<T>)
    ensures a + b + c == a + (b + c)
  {
  }

  /** The position of the first element for which the lookup `f` finds something. */
  function FirstHit<S, T>(f: S -> Option<T>, xs: seq<S>): (r: Option<nat>)
    ensures r.Some? ==> r.value < |xs| && f(xs[r.value]).Some?
    ensures r.Some? ==> forall j :: 0 <= j < r.value ==> f(xs[j]).None?
    ensures r.None? <==> forall k :: 0 <= k < |xs| ==> f(xs[k]).None?
  {
    if xs == [] then None
    else if f(xs[0]).Some? then Some(0)
    else match FirstHit(f, xs[1..])
      case None => None
      case Some(k) => Some(k + 1)
  }

  /** `f(x1) || f(x2) || …` for lookups that may find nothing: what the first lookup that
      finds something finds, where every lookup before it found nothing. */
  function FirstFound<S, T>(f: S -> Option<T>, xs: seq<S>): (r: Option<T>)
    ensures r.None? <==> forall k :: 0 <= k < |xs| ==> f(xs[k]).None?
    ensures forall k :: 0 <= k < |xs| && f(xs[k]).Some? && (forall j :: 0 <= j < k ==> f(xs[j]).None?) ==>
              r == f(xs[k])
    ensures r.Some? ==>
              exists k :: 0 <= k < |xs| && (forall j :: 0 <= j < k ==> f(xs[j]).None?) && r == f(xs[k])
  {
    match FirstHit(f, xs)
    case None => None
    case Some(k) => f(xs[k])
  }

  /** `Array.prototype.filter`: keeps the elements satisfying `keep`, in order.
      Defined from the right so that it unfolds one element at a time, as a loop does. */
  function Filter<T>(keep: T -> bool, s: seq<T>): (r: seq<T>)
    ensures |r| <= |s|
    ensures forall x :: x in r ==> x in s && keep(x)
  {
    if s == [] then []
    else Filter(keep, s[..|s| - 1]) + (if keep(s[|s| - 1]) then [s[|s| - 1]] else [])
  }

  /** The positions in `s` of the elements `Filter` keeps. */
  function KeptIndices<T>(keep: T -> bool, s: seq<T>): seq<nat>
  {
    if s == [] then []
    else KeptIndices(keep, s[..|s| - 1]) + (if keep(s[|s| - 1]) then [|s| - 1] else [])
  }

  /** `Filter` keeps exactly the elements satisfying `keep` and does not reorder them:
      the k-th survivor is the element at the k-th kept position, those positions
      increase, and a position is kept exactly when its element satisfies `keep`. */
  lemma {:induction false} FilterByIndices<T>(keep: T -> bool, s: seq<T>)
    ensures |KeptIndices(keep, s)| == |Filter(keep, s)|
    ensures forall k :: 0 <= k < |KeptIndices(keep, s)| ==>
              KeptIndices(keep, s)[k] < |s| && Filter(keep, s)[k] == s[KeptIndices(keep, s)[k]]
    ensures forall k, l :: 0 <= k < l < |KeptIndices(keep, s)| ==>
              KeptIndices(keep, s)[k] < KeptIndices(keep, s)[l]
    ensures forall i :: 0 <= i < |s| ==> (keep(s[i]) <==> i in KeptIndices(keep, s))
  {
    if s != [] {
      var init, last := s[..|s| - 1], s[|s| - 1];
      FilterByIndices(keep, init);
      var idx := KeptIndices(keep, init);
      forall i | 0 <= i < |init|
        ensures s[i] == init[i]
      {
      }
      assert forall k :: 0 <= k < |idx| ==> idx[k] < |init|;
      if keep(last) {
        assert KeptIndices(keep, s) == idx + [|init|];
        assert Filter(keep, s) == Filter(keep, init) + [last];
      } else {
        assert KeptIndices(keep, s) == idx;
        assert Filter(keep, s) == Filter(keep, init);
      }
    }
  }

  /** A `for...of` loop that replaces each element by what a step makes of it and stops
      at the first step that throws: all the new elements, or that first error. Defined
      from the right, one element at a time, as the loop runs. */
  function Traverse<T>(step: T -> Outcome<T>, s: seq<T>): Outcome<seq<T>>
  {
    if s == [] then Ok([])
    else match Traverse(step, s[..|s| - 1])
      case Err(m) => Err(m)
      case Ok(done) =>
        match step(s[|s| - 1])
        case Err(m) => Err(m)
        case Ok(x) => Ok(done + [x])
  }

  /** What the same loop does to the outside world, given what one step does: the
      steps' effects in order, up to and including the first step that throws. */
  function Trace<T, E>(step: T -> Outcome<T>, effect: T -> seq<E>, s: seq<T>): seq<E>
  {
    if s == [] then []
    else if Traverse(step, s[..|s| - 1]).Err? then Trace(step, effect, s[..|s| - 1])
    else Trace(step, effect, s[..|s| - 1]) + effect(s[|s| - 1])
  }

  /** One more turn of the loop, from the loop's point of view. */
  lemma TraverseStep<T, E>(step: T -> Outcome<T>, effect: T -> seq<E>, s: seq<T>, i: nat)
    requires i < |s|
    ensures Traverse(step, s[..i + 1]) ==
              match Traverse(step, s[..i])
              case Err(m) => Err(m)
              case Ok(done) =>
                match step(s[i])
                case Err(m) => Err(m)
                case Ok(x) => Ok(done + [x])
    ensures Trace(step, effect, s[..i + 1]) ==
              if Traverse(step, s[..i]).Err? then Trace(step, effect, s[..i])
              else Trace(step, effect, s[..i]) + effect(s[i])
  {
    assert s[..i + 1][..i] == s[..i];
  }

  /** Once a step has thrown, the rest of the loop does not run: the outcome and the
      effects are those of the prefix that failed. */
  lemma {:induction false} TraverseFailureIsFinal<T, E>(step: T -> Outcome<T>, effect: T -> seq<E>,
                                                        s: seq<T>, k: nat)
    requires k <= |s| && Traverse(step, s[..k]).Err?
    ensures Traverse(step, s) == Traverse(step, s[..k])
    ensures Trace(step, effect, s) == Trace(step, effect, s[..k])
    decreases |s| - k
  {
    if k < |s| {
      TraverseStep(step, effect, s, k);
      TraverseFailureIsFinal(step, effect, s, k + 1);
    } else {
      assert s[..k] == s;
    }
  }

  /** The loop succeeds exactly when every step does, and then it keeps the length and
      the order: the i-th new element is what the step made of the i-th old one. */
  lemma {:induction false} TraverseIsPerElement<T>(step: T -> Outcome<T>, s: seq<T>)
    ensures Traverse(step, s).Ok? <==> forall i :: 0 <= i < |s| ==> step(s[i]).Ok?
    ensures Traverse(step, s).Ok? ==>
              |Traverse(step, s).value| == |s| &&
              forall i :: 0 <= i < |s| ==> Traverse(step, s).value[i] == step(s[i]).value
  {
    if s != [] {
      var init := s[..|s| - 1];
      TraverseIsPerElement(step, init);
      assert forall i :: 0 <= i < |init| ==> init[i] == s[i];
    }
  }

  /** A failing loop reports the error of its first failing step, and the steps before
      it all succeeded. */
  lemma {:induction false} TraverseReportsFirstError<T>(step: T -> Outcome<T>, s: seq<T>)
    requires Traverse(step, s).Err?
    ensures exists k :: 0 <= k < |s| && step(s[k]).Err? && Traverse(step, s).msg == step(s[k]).msg &&
                        forall j :: 0 <= j < k ==> step(s[j]).Ok?
  {
    var init := s[..|s| - 1];
    assert forall i :: 0 <= i < |init| ==> init[i] == s[i];
    if Traverse(step, init).Err? {
      TraverseReportsFirstError(step, init);
    } else {
      TraverseIsPerElement(step, init);
      assert step(s[|s| - 1]).Err?;
    }
  }
}
