/** The shape both analysis loops share: each scanned record either falls into a
    skip bucket or becomes a discount record.  `Count` is a bucket's counter and
    `Emitted` the list of records, both taken over the outcomes in input order. */
module Funnel {

  datatype Outcome<R, A> = Skip(reason: R) | Emit(action: A)

  /** How many outcomes were skipped for `reason`. */
  function Count<R(==), A>(os: seq<Outcome<R, A>>, reason: R): nat {
    if os == [] then 0
    else Count(os[..|os| - 1], reason) + (if os[|os| - 1] == Skip(reason) then 1 else 0)
  }

  /** The emitted records, in the order of the outcomes. */
  function Emitted<R, A>(os: seq<Outcome<R, A>>): seq<A> {
    if os == [] then []
    else Emitted(os[..|os| - 1]) + (if os[|os| - 1].Emit? then [os[|os| - 1].action] else [])
  }

  /** One more outcome at the end: its record, if any, goes last, and it bumps
      exactly the counter of its own reason. */
  lemma Snoc<R, A>(os: seq<Outcome<R, A>>, o: Outcome<R, A>, r: R)
    ensures Emitted(os + [o]) == Emitted(os) + (if o.Emit? then [o.action] else [])
    ensures Count(os + [o], r) == Count(os, r) + (if o == Skip(r) then 1 else 0)
  {
    assert (os + [o])[..|os|] == os;
  }

  /** Output follows input order: the records emitted for a concatenation are
      those of the first part followed by those of the second. */
  lemma {:induction false} EmittedAppend<R, A>(xs: seq<Outcome<R, A>>, ys: seq<Outcome<R, A>>)
    ensures Emitted(xs + ys) == Emitted(xs) + Emitted(ys)
    decreases |ys|
  {
    if ys != [] {
      var ys' := ys[..|ys| - 1];
      assert (xs + ys)[..|xs + ys| - 1] == xs + ys';
      EmittedAppend(xs, ys');
    } else {
      assert xs + ys == xs;
    }
  }

  /** Counters add up over a concatenation. */
  lemma {:induction false} CountAppend<R, A>(xs: seq<Outcome<R, A>>, ys: seq<Outcome<R, A>>, reason: R)
    ensures Count(xs + ys, reason) == Count(xs, reason) + Count(ys, reason)
    decreases |ys|
  {
    if ys != [] {
      var ys' := ys[..|ys| - 1];
      assert (xs + ys)[..|xs + ys| - 1] == xs + ys';
      CountAppend(xs, ys', reason);
    } else {
      assert xs + ys == xs;
    }
  }

  /** Every emitted record is the action of some outcome, and every emitting
      outcome's action is among the emitted records. */
  lemma {:induction false} EmittedMembers<R, A>(os: seq<Outcome<R, A>>, a: A)
    ensures a in Emitted(os) <==> exists i :: 0 <= i < |os| && os[i] == Emit(a)
  {
    if os != [] {
      var os' := os[..|os| - 1];
      EmittedMembers(os', a);
      if exists i :: 0 <= i < |os'| && os'[i] == Emit(a) {
        var i :| 0 <= i < |os'| && os'[i] == Emit(a);
        assert os[i] == Emit(a);
      }
      if exists i :: 0 <= i < |os| && os[i] == Emit(a) {
        var i :| 0 <= i < |os| && os[i] == Emit(a);
        if i < |os'| { assert os'[i] == Emit(a); }
      }
    }
  }
}
