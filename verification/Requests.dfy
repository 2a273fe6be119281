/** The request-scoped race between cancellation, the operator deadline and commit. */
module Requests {

  datatype RequestState = Active | Cancelled | Committed | TimedOut
  {
    predicate IsCancelled() { Cancelled? || TimedOut? }

    /** A request that has left `Active` never moves again. */
    predicate Settled() { !Active? }
  }

  datatype Signal = Quiet | PeerCancels | DeadlinePasses | Commits

  /** One atomic compare-and-exchange out of `Active`. */
  function Deliver(state: RequestState, signal: Signal): (r: RequestState)
    ensures state.Settled() ==> r == state
  {
    if state.Active? then
      match signal
      case Quiet => Active
      case PeerCancels => Cancelled
      case DeadlinePasses => TimedOut
      case Commits => Committed
    else
      state
  }

  function DeliverAll(state: RequestState, signals: seq<Signal>): RequestState
    decreases |signals|
  {
    if signals == [] then state else DeliverAll(Deliver(state, signals[0]), signals[1..])
  }

  /** The state each signal claims for itself. */
  function Claim(signal: Signal): RequestState
    requires !signal.Quiet?
  {
    match signal
    case PeerCancels => Cancelled
    case DeadlinePasses => TimedOut
    case Commits => Committed
  }

  lemma {:induction false} SettledForever(state: RequestState, signals: seq<Signal>)
    requires state.Settled()
    ensures DeliverAll(state, signals) == state
    decreases |signals|
  {
    if signals != [] {
      SettledForever(Deliver(state, signals[0]), signals[1..]);
    }
  }

  /**
   * For every interleaving there is exactly one winner: the first signal that is not quiet.
   * Signals after it, in any order and number, change nothing.
   */
  lemma {:induction false} FirstSignalWins(before: seq<Signal>, winner: Signal, after: seq<Signal>)
    requires forall i :: 0 <= i < |before| ==> before[i].Quiet?
    requires !winner.Quiet?
    ensures DeliverAll(Active, before + [winner] + after) == Claim(winner)
  {
    var all := before + [winner] + after;
    if before == [] {
      assert all[1..] == after;
      SettledForever(Claim(winner), after);
    } else {
      assert all[1..] == before[1..] + [winner] + after;
      FirstSignalWins(before[1..], winner, after);
    }
  }

  /** Commit and interruption exclude each other over whole histories. */
  lemma {:induction false} CommitExcludesCancellation(signals: seq<Signal>, cut: nat)
    requires cut <= |signals|
    requires DeliverAll(Active, signals[..cut]).Committed?
    ensures !DeliverAll(Active, signals).IsCancelled()
  {
    DeliverAllConcat(Active, signals[..cut], signals[cut..]);
    assert signals[..cut] + signals[cut..] == signals;
    SettledForever(Committed, signals[cut..]);
  }

  lemma {:induction false} DeliverAllConcat(state: RequestState, xs: seq<Signal>, ys: seq<Signal>)
    ensures DeliverAll(state, xs + ys) == DeliverAll(DeliverAll(state, xs), ys)
    decreases |xs|
  {
    if xs == [] {
      assert xs + ys == ys;
    } else {
      assert (xs + ys)[1..] == xs[1..] + ys;
      DeliverAllConcat(Deliver(state, xs[0]), xs[1..], ys);
    }
  }

  /** The shared cell of one admitted request. */
  class RequestCancellation {
    var state: RequestState

    constructor ()
      ensures state == Active
    {
      state := Active;
    }

    method Cancel()
      modifies this
      ensures state == Deliver(old(state), PeerCancels)
    {
      if state == Active { state := RequestState.Cancelled; }
    }

    method TimeOut()
      modifies this
      ensures state == Deliver(old(state), DeadlinePasses)
    {
      if state == Active { state := RequestState.TimedOut; }
    }

    /** Returns false exactly when an interruption won first; idempotent after it returns true. */
    method Commit() returns (won: bool)
      modifies this
      ensures state == Deliver(old(state), Commits)
      ensures won <==> state.Committed?
      ensures won <==> !old(state).IsCancelled()
    {
      if state == Active { state := RequestState.Committed; }
      won := state == RequestState.Committed;
    }
  }
}
