/** Step systems: a start state, and what an event does in a state, if it can happen there. */
module Runs {
  import opened Wrappers

  datatype System<!S, !E> = System(init: S, next: (S, E) -> Option<S>)

  /** Runs a schedule; None when some event of it cannot happen at its turn. */
  function Exec<S, E>(sys: System<S, E>, s: S, es: seq<E>): Option<S>
    decreases |es|
  {
    if es == [] then Some(s)
    else
      match sys.next(s, es[0])
      case None => None
      case Some(t) => Exec(sys, t, es[1..])
  }

  /** Some schedule leads from the start to this state. */
  ghost predicate Reachable<S(!new), E(!new)>(sys: System<S, E>, s: S) {
    exists es: seq<E> :: Exec(sys, sys.init, es) == Some(s)
  }

  lemma {:induction false} ExecConcat<S, E>(sys: System<S, E>, s: S, xs: seq<E>, ys: seq<E>)
    requires Exec(sys, s, xs).Some?
    ensures Exec(sys, s, xs + ys) == Exec(sys, Exec(sys, s, xs).value, ys)
    decreases |xs|
  {
    if xs == [] {
      assert xs + ys == ys;
    } else {
      assert (xs + ys)[0] == xs[0] && (xs + ys)[1..] == xs[1..] + ys;
      ExecConcat(sys, sys.next(s, xs[0]).value, xs[1..], ys);
    }
  }

  lemma ExecOne<S, E>(sys: System<S, E>, s: S, e: E)
    requires sys.next(s, e).Some?
    ensures Exec(sys, s, [e]) == sys.next(s, e)
  {
    assert Exec(sys, sys.next(s, e).value, [e][1..]) == sys.next(s, e);
  }

  /** One more event of a schedule. */
  lemma {:induction false} ExecOneMore<S, E>(sys: System<S, E>, s: S, es: seq<E>, n: nat, t: S)
    requires n < |es| && Exec(sys, s, es[..n]) == Some(t) && sys.next(t, es[n]).Some?
    ensures Exec(sys, s, es[..n + 1]) == sys.next(t, es[n])
  {
    ExecConcat(sys, s, es[..n], [es[n]]);
    ExecOne(sys, t, es[n]);
    assert es[..n + 1] == es[..n] + [es[n]];
  }

  lemma ReachableStart<S(!new), E(!new)>(sys: System<S, E>)
    ensures Reachable(sys, sys.init)
  {
    assert Exec(sys, sys.init, []) == Some(sys.init);
  }

  lemma {:induction false} ReachableThen<S(!new), E(!new)>(sys: System<S, E>, s: S, es: seq<E>, t: S)
    requires Reachable(sys, s) && Exec(sys, s, es) == Some(t)
    ensures Reachable(sys, t)
  {
    var before :| Exec(sys, sys.init, before) == Some(s);
    ExecConcat(sys, sys.init, before, es);
  }

  lemma ReachableStep<S(!new), E(!new)>(sys: System<S, E>, s: S, e: E)
    requires Reachable(sys, s) && sys.next(s, e).Some?
    ensures Reachable(sys, sys.next(s, e).value)
  {
    ExecOne(sys, s, e);
    ReachableThen(sys, s, [e], sys.next(s, e).value);
  }

  ghost predicate Kept<S(!new), E(!new)>(sys: System<S, E>, inv: S -> bool) {
    forall s, e :: inv(s) && sys.next(s, e).Some? ==> inv(sys.next(s, e).value)
  }

  /** What every step keeps, every run keeps. */
  lemma {:induction false} RunKeeps<S(!new), E(!new)>(sys: System<S, E>, inv: S -> bool, s: S, es: seq<E>)
    requires Kept(sys, inv) && inv(s) && Exec(sys, s, es).Some?
    ensures inv(Exec(sys, s, es).value)
    decreases |es|
  {
    if es != [] {
      RunKeeps(sys, inv, sys.next(s, es[0]).value, es[1..]);
    }
  }

  /** What holds at the start and every step keeps holds of every reachable state. */
  lemma ReachableKeeps<S(!new), E(!new)>(sys: System<S, E>, inv: S -> bool, s: S)
    requires Kept(sys, inv) && inv(sys.init) && Reachable(sys, s)
    ensures inv(s)
  {
    var es :| Exec(sys, sys.init, es) == Some(s);
    RunKeeps(sys, inv, sys.init, es);
  }

  // ------------------------------------------- what a run says of its schedule

  /** A run of a schedule is a run of any part at its start. */
  lemma {:induction false} ExecPrefix<S, E>(sys: System<S, E>, s: S, xs: seq<E>, ys: seq<E>)
    requires Exec(sys, s, xs + ys).Some?
    ensures Exec(sys, s, xs).Some? && Exec(sys, s, xs + ys) == Exec(sys, Exec(sys, s, xs).value, ys)
    decreases |xs|
  {
    if xs == [] {
      assert xs + ys == ys;
    } else {
      assert (xs + ys)[0] == xs[0] && (xs + ys)[1..] == xs[1..] + ys;
      ExecPrefix(sys, sys.next(s, xs[0]).value, xs[1..], ys);
    }
  }

  lemma {:induction false} ExecLast<S, E>(sys: System<S, E>, s: S, es: seq<E>, e: E)
    requires Exec(sys, s, es + [e]).Some?
    ensures Exec(sys, s, es).Some? && sys.next(Exec(sys, s, es).value, e) == Exec(sys, s, es + [e])
  {
    ExecPrefix(sys, s, es, [e]);
    var t := Exec(sys, s, es).value;
    assert Exec(sys, t, [e]).Some?;
    ExecOne(sys, t, e);
  }

  /** A run can be continued by an event exactly if the event can happen in its last state. */
  lemma {:induction false} ExecExtends<S, E>(sys: System<S, E>, s: S, es: seq<E>, e: E)
    requires Exec(sys, s, es).Some?
    ensures Exec(sys, s, es + [e]) == sys.next(Exec(sys, s, es).value, e)
  {
    ExecConcat(sys, s, es, [e]);
    var t := Exec(sys, s, es).value;
    if sys.next(t, e).Some? { ExecOne(sys, t, e); }
  }

  /** A schedule with one more event. */
  lemma {:induction false} OneMoreEvent<E>(es: seq<E>, e: E)
    ensures |es + [e]| == |es| + 1 && (es + [e])[|es|] == e && (es + [e])[..|es|] == es
    ensures forall k :: 0 <= k < |es| ==> (es + [e])[k] == es[k]
    ensures forall x :: x in es + [e] <==> x in es || x == e
  {
  }

  /** A relation between schedules and states that holds at the start and that every step keeps. */
  ghost predicate Records<S(!new), E(!new)>(sys: System<S, E>, rel: (seq<E>, S) -> bool) {
    && rel([], sys.init)
    && forall es, s, e :: rel(es, s) && sys.next(s, e).Some? ==> rel(es + [e], sys.next(s, e).value)
  }

  /** It then holds between every schedule from the start and the state it leads to. */
  lemma {:induction false} RunRecords<S(!new), E(!new)>(sys: System<S, E>, rel: (seq<E>, S) -> bool, es: seq<E>, s: S)
    requires Records(sys, rel) && Exec(sys, sys.init, es) == Some(s)
    ensures rel(es, s)
    decreases |es|
  {
    if es != [] {
      var before, e := es[..|es| - 1], es[|es| - 1];
      assert es == before + [e];
      ExecLast(sys, sys.init, before, e);
      var t := Exec(sys, sys.init, before).value;
      RunRecords(sys, rel, before, t);
    }
  }
}
