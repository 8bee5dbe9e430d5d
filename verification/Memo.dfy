/**
 The memoised attempt with an epoch fence (extension/src/memo.ts).

 A promise is a number: the index of the attempt it belongs to. `Memo` is the value of
 the three private fields; `RestoreMemo` is the object that updates them. `Layer` adds
 the log of every attempt ever started, so that what the fence promises can be stated:
 an attempt is inside its epoch exactly while the memo still holds its promise.
 */
module Memo {
  import opened Base

  datatype Memo = Memo(promise: Option<nat>, generation: nat, waiters: int) {
    predicate IsCurrent(epoch: nat) {
      epoch == generation
    }

    /** `run` while a promise is held: the caller shares it. */
    function Join(tracked: bool): Memo {
      if tracked then this.(waiters := waiters + 1) else this
    }

    /** `run` with nothing held: `id` is the promise of the attempt it starts. */
    function Start(id: nat, tracked: bool): Memo {
      this.(promise := Some(id), waiters := if tracked then 1 else 0)
    }

    function Evict(id: nat): Memo {
      if promise == Some(id) then Memo(None, generation + 1, 0) else this
    }

    predicate AbandonEvicts(id: nat) {
      promise == Some(id) && waiters - 1 <= 0
    }

    function Abandon(id: nat): Memo {
      if promise != Some(id) then this
      else if waiters - 1 > 0 then this.(waiters := waiters - 1)
      else Evict(id)
    }
  }

  const EMPTY := Memo(None, 0, 0)

  class RestoreMemo {
    var promise: Option<nat>
    var generation: nat
    var waiters: int

    function View(): Memo
      reads this
    {
      Memo(promise, generation, waiters)
    }

    constructor ()
      ensures View() == EMPTY
    {
      promise, generation, waiters := None, 0, 0;
    }

    /** `next` is the promise of the attempt this call would start. */
    method Run(next: nat, tracked: bool) returns (current: nat, started: bool)
      modifies this
      ensures started <==> old(promise).None?
      ensures current == if started then next else old(promise).value
      ensures View() == if started then old(View()).Start(next, tracked) else old(View()).Join(tracked)
    {
      if promise.Some? {
        if tracked {
          waiters := waiters + 1;
        }
        return promise.value, false;
      }
      waiters := if tracked then 1 else 0;
      promise := Some(next);
      return next, true;
    }

    method Abandon(attempt: nat) returns (evicted: bool)
      modifies this
      ensures View() == old(View()).Abandon(attempt)
      ensures evicted <==> old(View()).AbandonEvicts(attempt)
    {
      if promise != Some(attempt) {
        return false;
      }
      waiters := waiters - 1;
      if waiters > 0 {
        return false;
      }
      Evict(attempt);
      return true;
    }

    method Evict(attempt: nat)
      modifies this
      ensures promise == if old(promise) == Some(attempt) then None else old(promise)
      ensures generation == old(generation) + if old(promise) == Some(attempt) then 1 else 0
      ensures waiters == if old(promise) == Some(attempt) then 0 else old(waiters)
    {
      if promise != Some(attempt) {
        return;
      }
      promise := None;
      generation := generation + 1;
      waiters := 0;
    }
  }

  /** A memo and every attempt it ever started: the epoch it captured and where it is now. */
  datatype Layer<P> = Layer(memo: Memo, epochs: seq<nat>, runs: seq<P>) {
    ghost predicate Wf() {
      |epochs| == |runs|
    }

    predicate Current(i: nat) {
      i < |epochs| && memo.IsCurrent(epochs[i])
    }

    /** Starts an attempt in phase `p`, or shares the one held. */
    function Run(tracked: bool, p: P): Layer<P> {
      if memo.promise.Some? then this.(memo := memo.Join(tracked))
      else Layer(memo.Start(|runs|, tracked), epochs + [memo.generation], runs + [p])
    }

    function Shared(): nat {
      if memo.promise.Some? then memo.promise.value else |runs|
    }

    function At(i: nat, p: P): Layer<P> {
      if i < |runs| then this.(runs := runs[i := p]) else this
    }

    /** An attempt that rejects is evicted before any caller sees the rejection. */
    function Fail(i: nat, p: P): Layer<P> {
      At(i, p).(memo := memo.Evict(i))
    }

    function Abandon(i: nat): Layer<P> {
      this.(memo := memo.Abandon(i))
    }

    /** The fence: an attempt is in its epoch exactly while its promise is held. */
    ghost predicate Fenced() {
      && Wf()
      && (memo.promise.Some? ==> memo.promise.value < |runs|)
      && forall i :: 0 <= i < |epochs| ==>
           epochs[i] <= memo.generation && (epochs[i] == memo.generation <==> memo.promise == Some(i))
    }
  }

  datatype MemoEvent = Run(tracked: bool) | Abandon(id: nat) | Reject(id: nat) | Settle(id: nat)

  /** What any caller can make a memo do; the phase is whether the attempt has settled. */
  function Step(l: Layer<bool>, e: MemoEvent): Layer<bool> {
    match e
    case Run(tracked) => l.Run(tracked, false)
    case Abandon(id) => l.Abandon(id)
    case Reject(id) => l.Fail(id, true)
    case Settle(id) => l.At(id, true)
  }

  function Steps(l: Layer<bool>, es: seq<MemoEvent>): Layer<bool>
    decreases |es|
  {
    if es == [] then l else Step(Steps(l, es[..|es| - 1]), es[|es| - 1])
  }

  /** In every run the fence holds, whoever joins, abandons or fails, in any order. */
  lemma {:induction false} FenceHolds(es: seq<MemoEvent>)
    ensures Steps(Layer(EMPTY, [], []), es).Fenced()
  {
    if es != [] {
      FenceHolds(es[..|es| - 1]);
    }
  }

  /** An attempt that once left its epoch never gets back into it. */
  lemma {:induction false} EvictionIsFinal(l: Layer<bool>, es: seq<MemoEvent>, i: nat)
    requires l.Fenced() && i < |l.runs| && !l.Current(i)
    ensures var l' := Steps(l, es); l'.Fenced() && |l.runs| <= |l'.runs| && !l'.Current(i)
    ensures Steps(l, es).epochs[i] == l.epochs[i] && l.memo.generation <= Steps(l, es).memo.generation
  {
    if es != [] {
      EvictionIsFinal(l, es[..|es| - 1], i);
    }
  }
}
