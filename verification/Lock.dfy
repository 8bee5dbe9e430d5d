/**
 The state lock (extension/src/lock.ts): a chain of promises. Each `acquire` waits for the
 promise that was the tail and leaves its own as the new tail; releasing resolves it.

 Promises are numbered in order of creation, 0 being the one resolved from the start, so a
 ticket is the number of the promise its holder will resolve.
 */
module Lock {
  datatype Chain = Chain(tail: nat, resolved: set<nat>) {
    function Acquire(): Chain {
      this.(tail := tail + 1)
    }

    /** The holder of ticket `t` may go on: the promise it awaits is resolved. */
    predicate Open(t: nat) {
      0 < t <= tail && t - 1 in resolved
    }

    function Release(t: nat): Chain {
      this.(resolved := resolved + {t})
    }

    /** The resolved promises are an initial segment of the chain. */
    ghost predicate Wf() {
      && 0 in resolved
      && forall t :: t in resolved ==> t <= tail && (t == 0 || t - 1 in resolved)
    }

    /** Ticket `t` has entered and not released. */
    predicate Inside(t: nat) {
      Open(t) && t !in resolved
    }
  }

  const IDLE := Chain(0, {0})

  lemma {:induction false} EarlierResolved(c: Chain, s: nat, t: nat)
    requires c.Wf() && t in c.resolved && s <= t
    ensures s in c.resolved
    decreases t
  {
    if s < t {
      EarlierResolved(c, s, t - 1);
    }
  }

  /** At most one ticket is inside. */
  lemma MutualExclusion(c: Chain, s: nat, t: nat)
    requires c.Wf() && c.Inside(s) && c.Inside(t)
    ensures s == t
  {
    if s < t {
      EarlierResolved(c, s, t - 1);
    } else if t < s {
      EarlierResolved(c, t, s - 1);
    }
  }

  class StateLock {
    var tail: nat
    var resolved: set<nat>

    function View(): Chain
      reads this
    {
      Chain(tail, resolved)
    }

    constructor ()
      ensures View() == IDLE
    {
      tail, resolved := 0, {0};
    }

    predicate IsOpen(ticket: nat)
      reads this
    {
      View().Open(ticket)
    }

    /** The synchronous half of `acquire`; the caller then awaits promise `ticket - 1`. */
    method Acquire() returns (ticket: nat)
      modifies this
      ensures View() == old(View()).Acquire()
      ensures ticket == tail && ticket > 0
    {
      tail := tail + 1;
      ticket := tail;
    }

    method Release(ticket: nat)
      modifies this
      ensures View() == old(View()).Release(ticket)
    {
      resolved := resolved + {ticket};
    }
  }

  // ----- every run of the lock -----

  datatype Event = Acquire | Enter(ticket: nat) | Release(ticket: nat)

  /** The lock and the tickets that entered, in the order they did. */
  datatype History = History(chain: Chain, entered: seq<nat>)

  /** A ticket enters once its predecessor released, and can release only after it entered. */
  function Step(h: History, e: Event): History {
    match e
    case Acquire => h.(chain := h.chain.Acquire())
    case Enter(t) => if h.chain.Open(t) && t !in h.entered then h.(entered := h.entered + [t]) else h
    case Release(t) => if t in h.entered then h.(chain := h.chain.Release(t)) else h
  }

  function Steps(es: seq<Event>): History {
    if es == [] then History(IDLE, []) else Step(Steps(es[..|es| - 1]), es[|es| - 1])
  }

  /** Entered tickets are 1, 2, 3, ...; all of them but perhaps the last have released. */
  ghost predicate Inv(h: History) {
    && h.chain.Wf()
    && (forall i :: 0 <= i < |h.entered| ==> h.entered[i] == i + 1)
    && |h.entered| <= h.chain.tail
    && (forall t :: t in h.chain.resolved ==> t <= |h.entered|)
    && (|h.entered| > 1 ==> |h.entered| - 1 in h.chain.resolved)
  }

  lemma StepKeeps(h: History, e: Event)
    requires Inv(h)
    ensures Inv(Step(h, e))
  {
    match e
    case Acquire =>
    case Release(t) =>
      if t in h.entered {
        assert t - 1 in h.chain.resolved by {
          if 1 < t <= |h.entered| - 1 {
            EarlierResolved(h.chain, t - 1, |h.entered| - 1);
          }
        }
      }
    case Enter(t) =>
      assert 0 < t <= |h.entered| ==> h.entered[t - 1] in h.entered;
      if h.chain.Open(t) && t !in h.entered {
        assert t == |h.entered| + 1;
      }
  }

  /** Whatever the interleaving, tickets enter in acquire order and at most one is inside. */
  lemma {:induction false} FirstComeFirstServed(es: seq<Event>)
    ensures var h := Steps(es);
      && Inv(h)
      && (forall i :: 0 <= i < |h.entered| ==> h.entered[i] == i + 1)
      && (forall s, t :: s in h.entered && t in h.entered && s !in h.chain.resolved && t !in h.chain.resolved ==>
            s == t)
  {
    if es != [] {
      FirstComeFirstServed(es[..|es| - 1]);
      StepKeeps(Steps(es[..|es| - 1]), es[|es| - 1]);
    }
    var h := Steps(es);
    forall s, t | s in h.entered && t in h.entered && s !in h.chain.resolved && t !in h.chain.resolved
      ensures s == t
    {
      if s < |h.entered| {
        EarlierResolved(h.chain, s, |h.entered| - 1);
      }
      if t < |h.entered| {
        EarlierResolved(h.chain, t, |h.entered| - 1);
      }
    }
  }
}
