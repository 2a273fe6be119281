/** Rocq as this server sees it: a deterministic function of the environment and the bytes it is asked about. */
module Prover {
  import opened Outcomes
  import opened Sources
  import opened Checkpoints
  import opened Declarations

  /** A code for one immutable Rocq proof state. */
  datatype RocqState = RocqState(code: nat)

  /** A code for the compiled environment and documents one prover epoch has loaded. */
  type Environment = nat

  /** A whole fragment either runs to a new state or stops just before its first bad sentence. */
  datatype Verdict = Accepted(state: RocqState) | Rejected(before: RocqState)

  datatype Rocq = Rocq(
    rows: (Environment, Text) -> seq<Row>,
    insertion: (Environment, Text, seq<string>) -> nat,
    at: (Environment, File, Text, nat) -> RocqState,
    step: (RocqState, Text) -> Verdict,
    finished: RocqState -> bool,
    proofMode: RocqState -> bool,
    givenUp: RocqState -> bool,
    view: RocqState -> View,
    assumptions: (RocqState, seq<string>) -> Report)
  {
    /** The states a checkpoint may hold: inside a proof, with no goal given up. */
    predicate Safe(s: RocqState) {
      proofMode(s) && !givenUp(s)
    }

    /** The root state of a target: its own header position, or a new header run at the insertion point. */
    function Root(env: Environment, target: Target): Option<RocqState> {
      match target.newHeader
      case Some(header) =>
        (match step(at(env, target.file, target.source, target.header.start), header + PERIOD)
         case Accepted(s) => Some(s)
         case Rejected(_) => None)
      case None =>
        (match Find(rows(env, target.source), target.name)
         case Some(i) => Some(at(env, target.file, target.source, rows(env, target.source)[i].header.end))
         case None => None)
    }

    /** Run fragments in order; every intermediate state must be safe to hold. */
    function Run(s: RocqState, fragments: seq<Text>): Option<RocqState>
      decreases |fragments|
    {
      if fragments == [] then Some(s)
      else match step(s, fragments[0])
        case Rejected(_) => None
        case Accepted(t) => if Safe(t) then Run(t, fragments[1..]) else None
    }

    /** What a checkpoint means in one environment: its fragments, in order, from the proof root. */
    function Replay(env: Environment, target: Target, fragments: seq<Text>): Option<RocqState> {
      match Root(env, target)
      case None => None
      case Some(s) => if Safe(s) then Run(s, fragments) else None
    }

    lemma {:induction false} RunAppend(s: RocqState, fragments: seq<Text>, last: Text)
      ensures Run(s, fragments + [last]) ==
              match Run(s, fragments)
              case None => None
              case Some(t) =>
                match step(t, last)
                case Rejected(_) => None
                case Accepted(u) => if Safe(u) then Some(u) else None
      decreases |fragments|
    {
      if fragments == [] {
        assert fragments + [last] == [last];
        if step(s, last).Accepted? {
          assert [last][1..] == [];
        }
      } else {
        assert (fragments + [last])[1..] == fragments[1..] + [last];
        if step(s, fragments[0]).Accepted? {
          RunAppend(step(s, fragments[0]).state, fragments[1..], last);
        }
      }
    }
  }

  /** The target is record `i` of a report on exactly its bytes, and no other record touches its range. */
  ghost predicate RowOf(rocq: Rocq, env: Environment, t: Target, i: nat) {
    var rows := rocq.rows(env, t.source);
    && i < |rows| && AllPlaced(rows, t.source) && SoleOwner(rows, i)
    && rows[i].path == t.name && rows[i].kind == Some(t.kind)
    && rows[i].header == t.header && rows[i].declaration == t.declaration
  }

  /** What every target an open proof carries satisfies: its range can be replaced without harm to others. */
  ghost predicate Publishable(rocq: Rocq, t: Target) {
    && t.soleOwner
    && t.declaration.start <= t.declaration.end <= |t.source|
    && (t.newHeader.Some? ==> t.header == t.declaration && t.declaration.start == t.declaration.end)
    && (t.newHeader.None? ==>
          t.declaration.start <= t.header.end <= t.declaration.end && exists env, i: nat :: RowOf(rocq, env, t, i))
  }

  const PERIOD: Text := [46]
}
