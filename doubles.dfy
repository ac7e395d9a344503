/**
 * Scripted stand-ins for everything the deployer calls out to.
 *
 * `Script` plays the role of a registered fake endpoint: it answers the i-th
 * request with the i-th scripted reply (repeating the last one once the
 * script is used up) and keeps a log of the requests it received. `Mock`
 * plays the role of a replaced `total_units`: either it always returns one
 * value, or it hands out a list of values one call at a time and fails once
 * the list is used up.
 */
module Doubles {
  import opened Wrappers

  class Script<Q, R> {
    const replies: seq<R>
    var log: seq<Q>

    ghost predicate Valid()
    {
      |replies| > 0
    }

    /** The reply the i-th request (counting from 0) receives. */
    function ReplyAt(i: nat): R
      requires Valid()
    {
      if i < |replies| then replies[i] else replies[|replies| - 1]
    }

    /** Every reply given to requests lo up to (not including) hi satisfies `ok`. */
    predicate AllReplies(lo: nat, hi: nat, ok: R -> bool)
      requires Valid()
    {
      forall i | lo <= i < hi :: ok(ReplyAt(i))
    }

    lemma AllRepliesExtend(lo: nat, hi: nat, ok: R -> bool)
      requires Valid() && lo <= hi
      ensures AllReplies(lo, hi + 1, ok) == (AllReplies(lo, hi, ok) && ok(ReplyAt(hi)))
    {
    }

    constructor (replies: seq<R>)
      requires |replies| > 0
      ensures Valid() && this.replies == replies && log == []
    {
      this.replies := replies;
      log := [];
    }

    /** Receives one request: logs it and answers with the next scripted reply. */
    method Call(q: Q) returns (r: R)
      requires Valid()
      modifies this
      ensures log == old(log) + [q]
      ensures r == ReplyAt(|old(log)|)
    {
      r := ReplyAt(|log|);
      log := log + [q];
    }
  }

  /** How a replaced function answers: always the same value, or a scripted list of values. */
  datatype Behaviour<T> = ReturnValue(value: T) | SideEffect(values: seq<T>)

  class Mock<T> {
    const behaviour: Behaviour<T>
    var calls: nat

    /** What the next call returns; None when a side-effect list is used up (an IndexError). */
    function Upcoming(): Option<T>
      reads this
    {
      match behaviour
      case ReturnValue(v) => Some(v)
      case SideEffect(values) => if calls < |values| then Some(values[calls]) else None
    }

    constructor (behaviour: Behaviour<T>)
      ensures this.behaviour == behaviour && calls == 0
    {
      this.behaviour := behaviour;
      calls := 0;
    }

    /** One call: the upcoming value; only a call that returns advances the cursor. */
    method Call() returns (r: Option<T>)
      modifies this
      ensures r == old(Upcoming())
      ensures calls == old(calls) + (if r.Some? then 1 else 0)
    {
      r := Upcoming();
      if r.Some? {
        calls := calls + 1;
      }
    }
  }
}
