/** The `check` tool: commit the first accepted alternative and, when it finishes the proof, publish it. */
module Checking {
  import opened Outcomes
  import opened Sources
  import opened Checkpoints
  import opened Prover
  import opened Coherence
  import opened Requests
  import opened Hosts
  import opened Pet
  import opened Engine
  import opened Splicing
  import opened Writeback
  import opened Runtime
  import opened Attempts
  import opened Publishing

  function BookErrorKind(error: BookError): (k: ErrorKind)
    ensures !InvalidatesEpoch(k)
  {
    match error
    case NoActiveProof | Unknown | TooFar => InvalidRequest
    case ActiveProof | Exhausted => InvalidConfiguration
  }

  /** The prover exports what it did before, and at least `h` on top. */
  ghost predicate OnTop(before: Option<Process>, now: Option<Process>, h: Handle) {
    Table(before).Keys <= Table(now).Keys && h !in Table(before)
  }

  /** What was without an owner before the pending state was exported still is, unless the epoch ended. */
  twostate predicate SparedSince(rt: ProjectRuntime, new before: Option<Process>)
    reads rt, rt.actor
  {
    rt.actor.epoch == old(rt.actor.epoch) ==> Orphans(old(rt.sessions), before) <= rt.Loose()
  }

  /** Committing the pending state makes it owned: coherent, and nothing loose that was not before. */
  lemma CommitAdopts(rocq: Rocq, books: map<Session, Book>, s: Session, fragment: Text, step: Step,
                     before: Option<Process>, now: Option<Process>)
    requires s in books && books[s].proof.Some?
    requires Pending(rocq, books, s, books[s].proof.value.current, fragment, step, before, now)
    ensures var (after, id) := books[s].Commit(step.state, fragment, step.finished, step.view);
            id.Ok? ==> Coherent(rocq, books[s := after], now) && Orphans(books[s := after], now) == Orphans(books, before)
  {
    var (after, id) := books[s].Commit(step.state, fragment, step.finished, step.view);
    if id.Ok? {
      assert WellFormed(books[s]);
      CommitIsWellFormed(books[s], step.state, fragment, step.finished, step.view);
      var base := books[s].proof.value.current;
      var h := HandleAt(books, s, base).value;
      var st := rocq.step(Table(before)[h], fragment).state;
      assert step.state in map[step.state := st];
      assert Table(now)[h] == Table(before)[h] && Table(now)[step.state] == st;
      assert Backed(rocq, after.proof.value, id.value, now);
      AdoptKeepsCoherence(rocq, books, before, now, s, after, id.value, step.state, st);
    }
  }

  lemma CommitIsWellFormed(b: Book, state: Handle, input: Text, finished: bool, view: View)
    requires WellFormed(b)
    ensures WellFormed(b.Commit(state, input, finished, view).0)
  {
    OneCommandKeepsTheTree(b, DoCommit(state, input, finished, view));
  }

  /** The terminator may be tried on the pending state: it stays pending unless the epoch ended. */
  lemma StillPending(rocq: Rocq, books: map<Session, Book>, s: Session, base: Id, fragment: Text, step: Step,
                     before: Option<Process>, p: Option<Process>, q: Option<Process>)
    requires Pending(rocq, books, s, base, fragment, step, before, p) && Same(p, q)
    ensures Pending(rocq, books, s, base, fragment, step, before, q)
  {
  }

  /** Try the generated terminator on a finishing alternative while it can still be cancelled. */
  method CloseStep(rt: ProjectRuntime, host: Host, ghost s: Session, ghost base: Id, ghost fragment: Text, target: Target, step: Step,
                   ghost before: Option<Process>, ghost quiet: bool := false)
      returns (closed: Option<ErrorKind>)
    requires rt.Valid() && !rt.actor.silentLoss
    requires Pending(rt.actor.rocq, rt.sessions, s, base, fragment, step, before, rt.actor.process)
    requires quiet ==> host.Still(4) && step.finished && Contents(host.Disk(), target.file) == Some(target.source)
                       && step.state in Table(rt.actor.process)
                       && Closes(rt.actor.rocq, Table(rt.actor.process)[step.state], Terminator(target.kind))
    modifies rt.actor`process, rt.actor`epoch, rt.actor`silentLoss, host`since, host`request
    ensures rt.actor.Steady(host)
    ensures !step.finished ==> closed == None
    ensures step.finished && closed.None? ==>
              step.state in Table(old(rt.actor.process))
              && Closes(rt.actor.rocq, Table(old(rt.actor.process))[step.state], Terminator(target.kind))
    ensures closed.None? ==> !rt.actor.silentLoss
    ensures Survived(closed) && !rt.actor.silentLoss ==>
              Pending(rt.actor.rocq, rt.sessions, s, base, fragment, step, before, rt.actor.process)
    ensures !Survived(closed) ==> rt.actor.process == None
    ensures closed == Some(RequestCancelled) ==> host.request.IsCancelled()
    ensures quiet ==> closed == None && host.Waited(4)
  {
    if !step.finished { return None; }
    var r := CloseProof(rt.actor, host, target, step.state, quiet);
    if Intact(r) && !rt.actor.silentLoss {
      StillPending(rt.actor.rocq, rt.sessions, s, base, fragment, step, before, old(rt.actor.process), rt.actor.process);
    }
    closed := if r.Err? then Some(r.error) else None;
  }

  predicate Survived(closed: Option<ErrorKind>) {
    closed.Some? ==> !InvalidatesEpoch(closed.value)
  }

  /** Exactly one session's graph grew, by exactly one child of its selected node, now selected. */
  ghost predicate Grew(before: map<Session, Book>, after: map<Session, Book>, s: Session, step: Step, fragment: Text, id: Id) {
    && before.Keys == after.Keys && s in before
    && (forall t :: t in before && t != s ==> SameTree(before[t], after[t]))
    && var (book, r) := before[s].Commit(step.state, fragment, step.finished, step.view);
       r == Ok(id) && SameTree(book, after[s])
  }

  /**
   * The linearization point of `check`. Cancellation that won first leaves everything as it was;
   * otherwise the accepted state becomes a child of the selected checkpoint.
   */
  method CommitStep(rt: ProjectRuntime, host: Host, s: Session, fragment: Text, step: Step, closed: Option<ErrorKind>,
                    ghost before: Option<Process>, ghost quiet: bool := false)
      returns (r: EngineResult<Id>)
    requires rt.Valid() && s in rt.sessions && rt.sessions[s].proof.Some?
    requires quiet ==> host.Still(1) && rt.sessions[s].next < MAX_ID
    requires Survived(closed) && !rt.actor.silentLoss ==>
               Pending(rt.actor.rocq, rt.sessions, s, rt.sessions[s].proof.value.current, fragment, step, before, rt.actor.process)
    requires !Survived(closed) ==> rt.actor.process == None
    modifies rt`sessions, rt.actor, host`since, host`request
    ensures Upheld(rt, host, r)
    ensures OnTop(before, old(rt.actor.process), step.state) ==> SparedSince(rt, before)
    ensures Intact(r) && !rt.actor.silentLoss ==>
              rt.Loose() <= Orphans(old(rt.sessions), before)
    ensures r.Err? ==> rt.sessions == old(rt.sessions)
    ensures r.Ok? ==> host.request.Committed? && Grew(old(rt.sessions), rt.sessions, s, step, fragment, r.value)
    ensures r.Ok? && Survived(closed) ==>
              HandleAt(rt.sessions, s, r.value) == Some(step.state) && rt.actor.silentLoss == old(rt.actor.silentLoss)
    ensures quiet ==> r.Ok? && host.Clock() == old(host.Clock()) + 1 && host.Disk() == old(host.Disk())
  {
    var won := host.Commit();
    if !won { return Err(RequestCancelled); }
    var (after, id) := rt.sessions[s].Commit(step.state, fragment, step.finished, step.view);
    if id.Err? {
      r := Undo(rt, host, s, fragment, step, closed, before, BookErrorKind(id.error));
      return;
    }
    Adopt(rt, s, fragment, step, closed, before, after, id.value);
    r := Ok(id.value);
  }

  /** Install the grown book; a terminator that took the epoch with it makes every handle stale. */
  method Adopt(rt: ProjectRuntime, s: Session, ghost fragment: Text, ghost step: Step, closed: Option<ErrorKind>,
               ghost before: Option<Process>, after: Book, ghost id: Id)
    requires rt.Valid() && s in rt.sessions && rt.sessions[s].proof.Some?
    requires (after, Ok(id)) == rt.sessions[s].Commit(step.state, fragment, step.finished, step.view)
    requires Survived(closed) && !rt.actor.silentLoss ==>
               Pending(rt.actor.rocq, rt.sessions, s, rt.sessions[s].proof.value.current, fragment, step, before, rt.actor.process)
    requires !Survived(closed) ==> rt.actor.process == None
    modifies rt`sessions, rt.actor`silentLoss
    ensures rt.Valid() && (rt.actor.silentLoss ==> old(rt.actor.silentLoss))
    ensures !rt.actor.silentLoss ==> rt.Sound()
    ensures !rt.actor.silentLoss ==> rt.Loose() <= Orphans(old(rt.sessions), before)
    ensures OnTop(before, rt.actor.process, step.state) ==> Orphans(old(rt.sessions), before) <= rt.Loose()
    ensures Grew(old(rt.sessions), rt.sessions, s, step, fragment, id)
    ensures Survived(closed) ==> HandleAt(rt.sessions, s, id) == Some(step.state) && rt.actor.silentLoss == old(rt.actor.silentLoss)
  {
    assert WellFormed(rt.sessions[s]);
    CommitIsWellFormed(rt.sessions[s], step.state, fragment, step.finished, step.view);
    if Survived(closed) && !rt.actor.silentLoss {
      CommitAdopts(rt.actor.rocq, rt.sessions, s, fragment, step, before, rt.actor.process);
    }
    ghost var was := rt.sessions;
    CommitHolds(was, s, fragment, step);
    rt.sessions := rt.sessions[s := after];
    GrewAtOnce(was, s, step, fragment, id);
    if !Survived(closed) {
      ghost var grown := rt.sessions;
      rt.InvalidateProjectStates(s);
      GrewLater(was, grown, rt.sessions, s, step, fragment, id);
    }
  }

  /** The committed child alone holds something new. */
  lemma CommitHolds(was: map<Session, Book>, s: Session, fragment: Text, step: Step)
    requires s in was && was[s].proof.Some? && WellFormed(was[s])
    requires was[s].Commit(step.state, fragment, step.finished, step.view).1.Ok?
    ensures forall h :: Held(was[s := was[s].Commit(step.state, fragment, step.finished, step.view).0], h) <==> Held(was, h) || h == step.state
  {
    var (after, id) := was[s].Commit(step.state, fragment, step.finished, step.view);
    InstallKeepsHeld(was, s, after, id.value, step.state);
  }

  lemma GrewAtOnce(was: map<Session, Book>, s: Session, step: Step, fragment: Text, id: Id)
    requires s in was && was[s].proof.Some? && was[s].Commit(step.state, fragment, step.finished, step.view).1 == Ok(id)
    ensures Grew(was, was[s := was[s].Commit(step.state, fragment, step.finished, step.view).0], s, step, fragment, id)
  {
  }

  lemma GrewLater(was: map<Session, Book>, grown: map<Session, Book>, now: map<Session, Book>, s: Session, step: Step, fragment: Text, id: Id)
    requires Grew(was, grown, s, step, fragment, id) && SameTrees(grown, now)
    ensures Grew(was, now, s, step, fragment, id)
  {
  }

  /** The book refused the new node: its state is given back before the error is returned. */
  method Undo(rt: ProjectRuntime, host: Host, s: Session, ghost fragment: Text, step: Step, closed: Option<ErrorKind>,
              ghost before: Option<Process>, refusal: ErrorKind)
      returns (r: EngineResult<Id>)
    requires rt.Valid() && s in rt.sessions && rt.sessions[s].proof.Some? && !InvalidatesEpoch(refusal)
    requires Survived(closed) && !rt.actor.silentLoss ==>
               Pending(rt.actor.rocq, rt.sessions, s, rt.sessions[s].proof.value.current, fragment, step, before, rt.actor.process)
    requires !Survived(closed) ==> rt.actor.process == None
    modifies rt.actor`process, rt.actor`epoch, host`since, host`request
    ensures Upheld(rt, host, r) && r.Err?
    ensures OnTop(before, old(rt.actor.process), step.state) ==> SparedSince(rt, before)
    ensures Intact(r) && !rt.actor.silentLoss ==> rt.Loose() <= Orphans(old(rt.sessions), before)
  {
    hide Describes, Backed;
    assert Elements([step.state]) == {step.state};
    var released := rt.actor.Release(host, [step.state]);
    if released.Err? { return Err(ReleaseError(released.error)); }
    if Survived(closed) && !rt.actor.silentLoss {
      assert Table(old(rt.actor.process)) - {step.state} == Table(before);
      SameKeepsCoherence(rt.actor.rocq, rt.sessions, before, rt.actor.process);
    }
    r := Err(refusal);
  }

  // ---------------------------------------------------------------- the whole tool

  /** The graph after a selecting `check`: one child more, or, once published or lost, no proof at all. */
  ghost predicate Advanced(before: map<Session, Book>, after: map<Session, Book>, s: Session, step: Step, fragment: Text, kept: Option<Id>) {
    match kept
    case Some(id) => Grew(before, after, s, step, fragment, id)
    case None =>
      && before.Keys == after.Keys && s in before
      && after[s] == Book(before[s].next + 1, None)
      && forall t :: t in before && t != s ==> SameTree(before[t], after[t])
  }

  lemma AdvancedAfter(before: map<Session, Book>, grown: map<Session, Book>, later: map<Session, Book>, s: Session, step: Step,
                      fragment: Text, id: Id)
    requires Grew(before, grown, s, step, fragment, id) && SameTrees(grown, later)
    ensures Advanced(before, later, s, step, fragment, Some(id))
    ensures Advanced(before, Cleared(later, s), s, step, fragment, None)
  {
  }

  /** A selecting `check` spends one new identifier and reuses none. */
  lemma AdvancedAged(before: map<Session, Book>, after: map<Session, Book>, s: Session, step: Step, fragment: Text, kept: Option<Id>)
    requires Advanced(before, after, s, step, fragment, kept) && before[s].proof.Some?
    ensures Aged(before, after)
  {
    forall t | t in before && t in after ensures BookAged(before[t], after[t]) {
      if t != s {
        assert SameTree(before[t], after[t]);
      } else if kept.Some? {
        assert SameTree(before[s].Commit(step.state, fragment, step.finished, step.view).0, after[s]);
      }
    }
  }

  /** The session stands at the child it gained. */
  lemma AdvancedSelects(before: map<Session, Book>, after: map<Session, Book>, s: Session, step: Step, fragment: Text, kept: Option<Id>)
    requires Advanced(before, after, s, step, fragment, kept) && before[s].proof.Some?
    ensures kept.Some? ==> after[s].proof.Some? && after[s].proof.value.current == kept.value
  {
  }

  lemma InvalidationKeepsTrees(books: map<Session, Book>)
    requires AllWellFormed(books)
    ensures SameTrees(books, InvalidateAll(books))
  {
    forall s | s in books ensures SameTree(books[s], InvalidateAll(books)[s]) {
      InvalidateKeepsTree(books[s]);
    }
  }

  /** A committed child carries its parent's fragments and its own. */
  lemma GrownFragments(before: map<Session, Book>, after: map<Session, Book>, s: Session, step: Step, fragment: Text, id: Id)
    requires AllWellFormed(before) && AllWellFormed(after) && Grew(before, after, s, step, fragment, id) && before[s].proof.Some?
    ensures after[s].proof.Some? && Tree(after[s].proof.value) && id in after[s].proof.value.checkpoints
    ensures Tree(before[s].proof.value) && after[s].proof.value.target == before[s].proof.value.target
    ensures Fragments(after[s].proof.value, id)
            == Fragments(before[s].proof.value, before[s].proof.value.current) + [fragment]
  {
    var p, q := before[s].proof.value, after[s].proof.value;
    var book := before[s].Commit(step.state, fragment, step.finished, step.view).0;
    assert WellFormed(before[s]) && WellFormed(after[s]);
    CommitIsWellFormed(before[s], step.state, fragment, step.finished, step.view);
    SameNodesSameFragments(book.proof.value, q, id);
    OlderFragments(before[s], book, p.current);
  }

  lemma {:induction false} OlderFragments(b: Book, grown: Book, c: Id)
    requires WellFormed(b) && WellFormed(grown) && b.proof.Some? && grown.proof.Some? && c in b.proof.value.checkpoints
    requires forall d :: d in b.proof.value.checkpoints ==>
               d in grown.proof.value.checkpoints && grown.proof.value.checkpoints[d] == b.proof.value.checkpoints[d]
    ensures Fragments(grown.proof.value, c) == Fragments(b.proof.value, c)
    decreases c
  {
    if b.proof.value.checkpoints[c].parent.Some? {
      OlderFragments(b, grown, b.proof.value.checkpoints[c].parent.value);
    }
  }

  /** Nothing stands in the way of this fragment finishing the proof. */
  ghost predicate Finishing(rocq: Rocq, books: map<Session, Book>, p: Option<Process>, s: Session, disk: map<File, Stored>, fragment: Text) {
    && Willing(rocq, books, p, s, disk, fragment) && books[s].next < MAX_ID
    && var st := rocq.step(BaseState(books, p, s), fragment).state;
       rocq.finished(st) && Closes(rocq, st, Terminator(books[s].proof.value.target.kind))
  }

  /** The fragment runs to a state in which the generated terminator is accepted and ends the proof. */
  predicate ClosesAfter(rocq: Rocq, from: RocqState, fragment: Text, kind: Kind) {
    rocq.step(from, fragment).Accepted? && Closes(rocq, rocq.step(from, fragment).state, Terminator(kind))
  }

  /** Try the terminator, then commit; only a cancellation found by the terminator stops before that. */
  method CloseAndCommit(rt: ProjectRuntime, host: Host, s: Session, fragment: Text, step: Step, ghost before: Option<Process>,
                        ghost quiet: bool := false)
      returns (r: EngineResult<Id>, closed: Option<ErrorKind>)
    requires rt.Sound() && s in rt.sessions && rt.sessions[s].proof.Some?
    requires Pending(rt.actor.rocq, rt.sessions, s, rt.sessions[s].proof.value.current, fragment, step, before, rt.actor.process)
    requires quiet ==> host.Still(5) && Finishing(rt.actor.rocq, rt.sessions, before, s, host.Disk(), fragment)
    modifies rt`sessions, rt.actor, host`since, host`request
    ensures Upheld(rt, host, r)
    ensures SparedSince(rt, before)
    ensures Intact(r) && !rt.actor.silentLoss ==> rt.Loose() <= Orphans(old(rt.sessions), before)
    ensures r.Err? ==> rt.sessions == old(rt.sessions)
    ensures r.Ok? ==> host.request.Committed? && Grew(old(rt.sessions), rt.sessions, s, step, fragment, r.value)
    ensures r.Ok? && closed.None? ==> rt.Sound() && HandleAt(rt.sessions, s, r.value).Some?
    ensures !step.finished ==> closed.None?
    ensures step.finished && closed.None? ==> Ready(old(rt.sessions), s) && ClosesAfter(rt.actor.rocq, BaseState(old(rt.sessions), before, s), fragment,
                                                                                       old(rt.sessions)[s].proof.value.target.kind)
    ensures r.Ok? ==> closed != Some(RequestCancelled)
    ensures quiet ==> r.Ok? && closed.None? && step.finished && host.Clock() == old(host.Clock()) + 5 && host.Disk() == old(host.Disk())
  {
    var proof := rt.sessions[s].proof.value;
    closed := CloseStep(rt, host, s, proof.current, fragment, proof.target, step, before, quiet);
    if closed == Some(RequestCancelled) { return Err(RequestCancelled), closed; }
    r := CommitStep(rt, host, s, fragment, step, closed, before, quiet);
  }

  /** What a selecting `check` left behind unowned, and the moment its publication began, if it came to one. */
  ghost predicate LeftBehind(script: nat -> Event, start: Option<Moment>, target: Target, path: seq<Text>, leak: set<Handle>) {
    leak != {} <==> start.Some? && Spills(script, start.value, target, path)
  }

  /** Close, commit and, when the proof is finished, publish the accepted alternative. */
  method Select(rt: ProjectRuntime, host: Host, s: Session, fragment: Text, step: Step, ghost before: Option<Process>,
                ghost quiet: bool := false, ghost smooth: bool := false)
      returns (r: EngineResult<(Option<Id>, Option<ErrorKind>)>, ghost begun: Option<Publication>, ghost leak: set<Handle>,
               ghost start: Option<Moment>)
    requires rt.Sound() && s in rt.sessions && rt.sessions[s].proof.Some?
    requires Pending(rt.actor.rocq, rt.sessions, s, rt.sessions[s].proof.value.current, fragment, step, before, rt.actor.process)
    requires quiet ==> host.Still(5) && Finishing(rt.actor.rocq, rt.sessions, before, s, host.Disk(), fragment)
    requires smooth ==> quiet && WillPublish(host.script, rt.actor.rocq, host.Clock() + 5, host.Disk(), rt.sessions[s].proof.value, fragment)
    modifies rt, rt.actor, host
    ensures Upheld(rt, host, r)
    ensures SparedSince(rt, before)
    ensures r.Err? ==> rt.sessions == old(rt.sessions) && host.log == old(host.log)
    ensures r.Ok? ==> host.request.Committed? && r.value.1 != Some(RequestCancelled)
                      && Advanced(old(rt.sessions), rt.sessions, s, step, fragment, r.value.0)
    ensures Intact(r) && !rt.actor.silentLoss ==> rt.Loose() <= Orphans(old(rt.sessions), before) + leak
    ensures leak <= rt.Loose() && WellFormed(old(rt.sessions)[s])
    ensures start.None? ==> host.era == old(host.era)
    ensures start.Some? ==> host.Passed(start.value) && start.value.request.Committed?
    ensures LeftBehind(host.script, start, old(rt.sessions)[s].proof.value.target, PathWith(old(rt.sessions)[s].proof.value, fragment), leak)
    ensures start.Some? ==> r.Ok? && step.finished && Ready(old(rt.sessions), s)
                            && ClosesAfter(rt.actor.rocq, BaseState(old(rt.sessions), before, s), fragment, old(rt.sessions)[s].proof.value.target.kind)
    ensures start.None? ==> begun.None? && (r.Ok? ==> r.value.0.Some? && (r.value.1.Some? <==> step.finished))
    ensures begun.None? ==> host.log == old(host.log)
    ensures begun.Some? ==> Published(old(rt.sessions)[s].proof.value, fragment, begun.value)
                            && WroteOnly(old(host.log), host.log, begun.value.prepared, begun.value.outcome)
    ensures r.Ok? && r.value == (None, None) ==>
              step.finished && begun.Some? && start.Some?
              && CompletedFrom(host.script, rt.actor.rocq, start.value, old(host.log), host.log, host.Clock(), old(rt.sessions)[s].proof.value.target,
                               rt.actor.epoch, begun.value)
    ensures quiet ==> start.Some? && start.value.clock == old(host.Clock()) + 5
    ensures smooth ==> r == Ok((None, None))
  {
    hide WillPublish, CompletedFrom, Finishing, ClosesAfter;
    begun, leak, start := None, {}, None;
    assert WellFormed(rt.sessions[s]);
    var id, closed := CloseAndCommit(rt, host, s, fragment, step, before, quiet);
    if id.Err? { return Err(id.error), begun, leak, start; }
    if closed.Some? || !step.finished { return Ok((Some(id.value), closed)), begun, leak, start; }
    host.Arrived();
    start := Some(host.Now());
    r, begun, leak := Finish(rt, host, s, fragment, step, id.value, old(rt.sessions), smooth);
  }

  /** The path the publication writes: the selected checkpoint's fragments and the accepted one. */
  ghost function PathWith(proof: ProofSession, fragment: Text): seq<Text>
  {
    if Tree(proof) then Fragments(proof, proof.current) + [fragment] else []
  }

  /** The publication was of exactly this path. */
  ghost predicate Published(proof: ProofSession, fragment: Text, done: Publication) {
    For(done.prepared, proof.target, PathWith(proof, fragment))
  }

  /** The publication begun at `start` went all the way. */
  ghost predicate CompletedFrom(script: nat -> Event, rocq: Rocq, start: Moment, before: seq<Effect>, after: seq<Effect>, to: nat, target: Target,
                                epoch: nat, done: Publication)
  {
    Completed(script, rocq, Writing(script, start), before, after, to, target.name, target.kind, epoch, done)
  }

  /** From clock `t` on, after the commit, nothing stands in the way of publishing the path with this fragment. */
  ghost predicate WillPublish(script: nat -> Event, rocq: Rocq, t: nat, disk: map<File, Stored>, proof: ProofSession, fragment: Text) {
    Unhindered(script, rocq, Moment(t, Committed, disk), proof.target, PathWith(proof, fragment))
  }

  /** Whoever holds a handle has a prover that is up. */
  lemma HoldersAreUp(rt: ProjectRuntime, s: Session, id: Id)
    requires rt.Sound() && HandleAt(rt.sessions, s, id).Some?
    ensures rt.actor.IsUp()
  {
    assert Backed(rt.actor.rocq, rt.sessions[s].proof.value, id, rt.actor.process);
  }

  /** Publish the committed path. */
  method Finish(rt: ProjectRuntime, host: Host, s: Session, ghost fragment: Text, ghost step: Step, id: Id, ghost was: map<Session, Book>,
                ghost smooth: bool)
      returns (r: EngineResult<(Option<Id>, Option<ErrorKind>)>, ghost begun: Option<Publication>, ghost leak: set<Handle>)
    requires rt.Sound() && s in rt.sessions && s in was && was[s].proof.Some? && AllWellFormed(was)
    requires Grew(was, rt.sessions, s, step, fragment, id)
    requires HandleAt(rt.sessions, s, id).Some?
    requires smooth ==> host.request.Committed?
                        && WillPublish(host.script, rt.actor.rocq, host.Clock(), host.Disk(), was[s].proof.value, fragment)
    modifies rt, rt.actor, host
    ensures rt.Sound() && OnlyInterrupted(old(host.request), host.request) && Onward(rt, host) && old(host.Clock()) < host.Clock()
    ensures rt.Loose() <= old(rt.Loose()) + leak && leak <= rt.Loose()
    ensures r.Ok? && Advanced(was, rt.sessions, s, step, fragment, r.value.0)
    ensures LeftBehind(host.script, Some(old(host.Now())), was[s].proof.value.target,
                       PathWith(was[s].proof.value, fragment), leak)
    ensures begun.None? ==> host.log == old(host.log)
    ensures begun.Some? ==> Published(was[s].proof.value, fragment, begun.value)
                            && WroteOnly(old(host.log), host.log, begun.value.prepared, begun.value.outcome)
    ensures r.value == (None, None) ==>
              begun.Some? && CompletedFrom(host.script, rt.actor.rocq, old(host.Now()), old(host.log), host.log, host.Clock(), was[s].proof.value.target,
                                           rt.actor.epoch, begun.value)
    ensures r.value.1 == Some(RequestCancelled) ==> host.request.IsCancelled()
    ensures smooth ==> r == Ok((None, None))
  {
    ghost var grown := rt.sessions;
    GrownFragments(was, grown, s, step, fragment, id);
    var proof := rt.sessions[s].proof.value;
    var path := CollectFragments(proof, id);
    ghost var m := host.Now();
    var published, kept;
    HoldersAreUp(rt, s, id);
    published, kept, begun := Conclude(rt, host, s, id, proof.target, path, smooth);
    InvalidationKeepsTrees(grown);
    AdvancedAfter(was, grown, if begun.Some? then InvalidateAll(grown) else grown, s, step, fragment, id);
    leak := Spilled(host.script, m, grown, s, proof.target, path);
    assert HandleAt(grown, s, id).value in HandlesOf(grown[s]);
    assert HandlesOf(grown[s]) <= AllHandles(grown);
    r := Ok((kept, if published.Err? then Some(published.error) else None));
  }

  datatype Checked =
    | NothingAccepted(base: Id, refusals: seq<Refusal>)
    | Selected(index: nat, checkpoint: Option<Id>, refusals: seq<Refusal>, error: Option<ErrorKind>)

  lemma AdvancedBefore(was: map<Session, Book>, before: map<Session, Book>, after: map<Session, Book>, s: Session, step: Step,
                       fragment: Text, kept: Option<Id>)
    requires SameTrees(was, before) && Advanced(before, after, s, step, fragment, kept) && before[s].proof.Some?
    ensures Advanced(was, after, s, step, fragment, kept)
  {
    assert SameTree(was[s], before[s]);
    var a := was[s].Commit(step.state, fragment, step.finished, step.view);
    var b := before[s].Commit(step.state, fragment, step.finished, step.view);
    assert a.1 == b.1 && (a.1.Ok? ==> SameTree(a.0, b.0));
  }

  /** The writes of one request: none, or those of one publication and none before it. */
  ghost predicate PublishedOnly(before: seq<Effect>, after: seq<Effect>, begun: Option<Publication>) {
    match begun
    case None => Calm(before, after)
    case Some(p) => exists middle :: Calm(before, middle) && WroteOnly(middle, after, p.prepared, p.outcome)
  }

  ghost predicate PublishedFully(script: nat -> Event, rocq: Rocq, start: Moment, before: seq<Effect>, after: seq<Effect>, to: nat, target: Target,
                                 epoch: nat, done: Publication)
  {
    exists middle :: Calm(before, middle) && CompletedFrom(script, rocq, start, middle, after, to, target, epoch, done)
  }

  /** What one `check` saw and did, as its caller can read it off the result. */
  ghost predicate Chosen(rocq: Rocq, before: map<Session, Book>, after: map<Session, Book>, s: Session, fragments: seq<Text>,
                         trace: seq<Evaluation>, checked: Checked)
  {
    && s in before && before[s].proof.Some?
    && AllEvaluated(rocq, before[s].proof.value, fragments, trace)
    && AllRefused(checked.refusals, trace)
    && match checked
       case NothingAccepted(base, refusals) =>
         && base == before[s].proof.value.current
         && |refusals| == |trace| == |fragments|
         && SameTrees(before, after)
       case Selected(index, checkpoint, refusals, error) =>
         && index == |refusals| && |trace| == index + 1
         && trace[index].answer.Passed?
         && Advanced(before, after, s, trace[index].answer.step, fragments[index], checkpoint)
         && (error.None? && checkpoint.None? ==> trace[index].answer.step.finished)
         && error != Some(RequestCancelled)
  }

  /** The alternative a selecting `check` took, and `[]` when it took none. */
  function Taken(r: EngineResult<Checked>, fragments: seq<Text>): Text {
    if r.Ok? && r.value.Selected? && r.value.index < |fragments| then fragments[r.value.index] else []
  }

  /**
   * `check`. The selected alternative is the first one not refused, with one refusal recorded for
   * each before it; the session gains exactly one child, or its proof is published or lost; an
   * error, or a request that did not commit, changes no graph and no file; a committed one never
   * answers "cancelled"; and exported states lose their owner exactly when a publication spills. While
   * the world keeps still and the prover has nothing against it, a finished proof is published.
   */
  method Check(rt: ProjectRuntime, host: Host, s: Session, fragments: seq<Text>, deadline: bool, ghost quiet: bool := false, ghost smooth: bool := false)
      returns (r: EngineResult<Checked>, ghost trace: seq<Evaluation>, ghost begun: Option<Publication>, ghost leak: set<Handle>,
               ghost start: Option<Moment>)
    requires rt.Sound() && s in rt.sessions
    requires quiet ==> QuietlyFinishing(rt, host, s, fragments)
    requires smooth ==> quiet && WillPublish(host.script, rt.actor.rocq, host.Clock() + 14, host.Disk(), rt.sessions[s].proof.value, fragments[0])
    modifies rt, rt.actor, host
    ensures Guarded(rt, host, r)
    ensures !AttemptsAdmitted(fragments) ==> r == Err(InvalidRequest)
    ensures r.Err? ==> Untouched(rt, host)
    ensures r.Ok? ==> Chosen(rt.actor.rocq, old(rt.sessions), rt.sessions, s, fragments, trace, r.value)
    ensures r.Ok? && r.value.Selected? ==> host.request.Committed?
    ensures r.Ok? && r.value.NothingAccepted? ==> Untouched(rt, host) && OnlyInterrupted(old(host.request), host.request)
    ensures Intact(r) && !rt.actor.silentLoss ==> rt.Loose() <= old(rt.Loose()) + leak
    ensures leak <= rt.Loose()
    ensures old(rt.sessions)[s].proof.None? ==> r.Err? && leak == {} && start == None
    ensures start.None? ==> host.era == old(host.era)
    ensures start.Some? ==> host.Passed(start.value) && start.value.request.Committed?
    ensures start.Some? ==> Holds(host.script, old(host.Clock()), old(host.Disk()), old(rt.sessions)[s].proof.value.target)
                            && old(host.Clock()) < start.value.clock
    ensures old(rt.sessions)[s].proof.Some? ==>
              Started(host.script, rt.actor.rocq, old(rt.sessions)[s].proof.value, fragments, trace, r, begun, leak, start)
    ensures PublishedOnly(old(host.log), host.log, begun)
    ensures begun.Some? ==> old(rt.sessions)[s].proof.Some?
                            && Published(old(rt.sessions)[s].proof.value, Taken(r, fragments), begun.value)
                            && Harmless(rt.actor.rocq, old(rt.sessions)[s].proof.value.target, begun.value.prepared.replacement)
                            && Writes(old(rt.sessions)[s].proof.value.target, PathWith(old(rt.sessions)[s].proof.value, Taken(r, fragments)),
                                      begun.value.prepared.replacement)
    ensures r.Ok? && r.value.Selected? && r.value.checkpoint.None? && r.value.error.None? ==>
              begun.Some? && start.Some?
              && PublishedFully(host.script, rt.actor.rocq, start.value, old(host.log), host.log, host.Clock(), old(rt.sessions)[s].proof.value.target,
                                rt.actor.epoch, begun.value)
    ensures r.Ok? && AttemptTimedOut in r.value.refusals ==> deadline && old(rt.actor.epoch) < rt.actor.epoch
    ensures quiet ==> start.Some? && start.value.clock == old(host.Clock()) + 14 && r.Ok? && r.value.Selected? && r.value.index == 0
    ensures smooth ==> r == Ok(Selected(0, None, [], None))
  {
    hide WillPublish, Harmless, Writes, Started, AllEvaluated, AllRefused, Advanced, Coherent, CompletedFrom;
    trace, begun, leak, start := [], None, {}, None;
    if rt.sessions[s].proof.Some? {
      NothingStarted(host.script, rt.actor.rocq, rt.sessions[s].proof.value, fragments);
    }
    var base := AdmitAttempts(rt, host, s, fragments, quiet);
    if base.Err? { return Err(base.error), trace, begun, leak, start; }
    r, trace, begun, leak, start := CheckFrom(rt, host, s, base.value, fragments, deadline, old(rt.sessions), host.log, quiet, smooth);
    if begun.Some? {
      ghost var proof := old(rt.sessions)[s].proof.value;
      PublishedWell(rt.actor.rocq, proof, Taken(r, fragments), begun.value);
    }
  }

  /** What was left behind is part of when a publication started. */
  lemma StartedLeaves(script: nat -> Event, rocq: Rocq, proof: ProofSession, fragments: seq<Text>, trace: seq<Evaluation>, r: EngineResult<Checked>,
                      begun: Option<Publication>, leak: set<Handle>, start: Option<Moment>)
    requires Started(script, rocq, proof, fragments, trace, r, begun, leak, start)
    ensures LeftBehind(script, start, proof.target, PathWith(proof, Taken(r, fragments)), leak)
  {
  }

  /** An error before any alternative was tried. */
  lemma NothingStarted(script: nat -> Event, rocq: Rocq, proof: ProofSession, fragments: seq<Text>)
    ensures forall k: ErrorKind :: Started(script, rocq, proof, fragments, [], Err(k), None, {}, None)
  {
  }

  /** What is published spares every other declaration and says what was accepted. */
  lemma PublishedWell(rocq: Rocq, proof: ProofSession, fragment: Text, done: Publication)
    requires Published(proof, fragment, done) && Publishable(rocq, proof.target)
    ensures Harmless(rocq, proof.target, done.prepared.replacement)
    ensures Writes(proof.target, PathWith(proof, fragment), done.prepared.replacement)
  {
    PublicationKeepsOtherDeclarations(rocq, proof.target, PathWith(proof, fragment));
    ReplacementSays(proof.target.source, proof.target, PathWith(proof, fragment));
  }

  /** The world keeps still long enough for the first alternative to finish the proof and be committed. */
  ghost predicate QuietlyFinishing(rt: ProjectRuntime, host: Host, s: Session, fragments: seq<Text>)
    reads rt, rt.actor, host
  {
    && host.Still(14) && AttemptsAdmitted(fragments)
    && Finishing(rt.actor.rocq, rt.sessions, rt.actor.process, s, host.Disk(), fragments[0])
    && Current(host.script, host.Clock() + 1, rt.artifacts, rt.sessions[s].proof.value.target.file)
  }

  /** When the publication of a `check` began, if it did, and what was then left behind. */
  ghost predicate Started(script: nat -> Event, rocq: Rocq, proof: ProofSession, fragments: seq<Text>, trace: seq<Evaluation>, r: EngineResult<Checked>,
                          begun: Option<Publication>, leak: set<Handle>, start: Option<Moment>)
  {
    && LeftBehind(script, start, proof.target, PathWith(proof, Taken(r, fragments)), leak)
    && (r.Ok? && r.value.Selected? ==> r.value.index < |trace| && r.value.index < |fragments| && trace[r.value.index].answer.Passed?)
    && (start.Some? ==> r.Ok? && r.value.Selected? && trace[r.value.index].answer.step.finished
                        && ClosesAfter(rocq, trace[r.value.index].from, fragments[r.value.index], proof.target.kind))
    && (start.None? ==> begun.None? && (r.Ok? && r.value.Selected? ==>
                          r.value.checkpoint.Some? && (r.value.error.Some? <==> trace[r.value.index].answer.step.finished)))
  }

  /** What a `check` wrote: nothing, or exactly what its publication did. */
  ghost predicate Recorded(script: nat -> Event, rocq: Rocq, before: seq<Effect>, after: seq<Effect>, to: nat, proof: ProofSession, fragments: seq<Text>,
                           r: EngineResult<Checked>, epoch: nat, begun: Option<Publication>, start: Option<Moment>)
  {
    match begun
    case None => after == before && !Accomplished(r)
    case Some(done) =>
      && r.Ok? && r.value.Selected? && WroteOnly(before, after, done.prepared, done.outcome)
      && Published(proof, Taken(r, fragments), done)
      && (Accomplished(r) ==> start.Some? && CompletedFrom(script, rocq, start.value, before, after, to, proof.target, epoch, done))
  }

  /** The answer says that the proof was published. */
  predicate Accomplished(r: EngineResult<Checked>) {
    r.Ok? && r.value.Selected? && r.value.checkpoint.None? && r.value.error.None?
  }

  method CheckFrom(rt: ProjectRuntime, host: Host, s: Session, base: Id, fragments: seq<Text>, deadline: bool, ghost was: map<Session, Book>,
                   ghost log: seq<Effect>, ghost quiet: bool := false, ghost smooth: bool := false)
      returns (r: EngineResult<Checked>, ghost trace: seq<Evaluation>, ghost begun: Option<Publication>, ghost leak: set<Handle>,
               ghost start: Option<Moment>)
    requires rt.Sound() && s in rt.sessions && rt.sessions[s].proof.Some? && rt.sessions[s].proof.value.current == base
    requires AllWellFormed(was) && SameTrees(was, rt.sessions) && host.log == log
    requires quiet ==> fragments != [] && host.Still(8) && Finishing(rt.actor.rocq, rt.sessions, rt.actor.process, s, host.Disk(), fragments[0])
    requires smooth ==> quiet && WillPublish(host.script, rt.actor.rocq, host.Clock() + 8, host.Disk(), was[s].proof.value, fragments[0])
    modifies rt, rt.actor, host
    ensures Guarded(rt, host, r)
    ensures r.Err? ==> SameTrees(was, rt.sessions)
    ensures r.Ok? ==> Chosen(rt.actor.rocq, was, rt.sessions, s, fragments, trace, r.value)
    ensures r.Ok? && r.value.Selected? ==> host.request.Committed?
    ensures r.Ok? && r.value.NothingAccepted? ==> OnlyInterrupted(old(host.request), host.request)
    ensures Intact(r) && !rt.actor.silentLoss ==> rt.Loose() <= old(rt.Loose()) + leak
    ensures leak <= rt.Loose() && was[s].proof.Some?
    ensures start.None? ==> host.era == old(host.era)
    ensures start.Some? ==> host.Passed(start.value) && start.value.request.Committed?
    ensures Started(host.script, rt.actor.rocq, was[s].proof.value, fragments, trace, r, begun, leak, start)
    ensures Recorded(host.script, rt.actor.rocq, log, host.log, host.Clock(), was[s].proof.value, fragments, r, rt.actor.epoch, begun, start)
    ensures r.Ok? && AttemptTimedOut in r.value.refusals ==> deadline && old(rt.actor.epoch) < rt.actor.epoch
    ensures quiet ==> start.Some? && start.value.clock == old(host.Clock()) + 8 && r.Ok? && r.value.Selected? && r.value.index == 0
    ensures smooth ==> r == Ok(Selected(0, None, [], None))
  {
    hide WillPublish, Finishing, Fruitless, Fruitful, Started, Recorded, Chosen;
    SameCurrent(was, rt.sessions, s);
    var found, refusals; ghost var before;
    found, refusals, trace, before := FindFirst(rt, host, s, fragments, deadline, was, log, quiet);
    ghost var mid := if found.Ok? && found.value.Some? then Orphans(rt.sessions, before) else rt.Loose();
    r, begun, leak, start := TakeIfFound(rt, host, s, base, fragments, refusals, found, trace, before, was, log, quiet, smooth);
    LooseBefore(old(rt.Loose()), mid, rt.Loose(), leak);
  }

  /** Go on with the accepted alternative, if there is one. */
  method TakeIfFound(rt: ProjectRuntime, host: Host, s: Session, base: Id, fragments: seq<Text>, refusals: seq<Refusal>,
                     found: EngineResult<Option<Step>>, ghost trace: seq<Evaluation>, ghost before: Option<Process>,
                     ghost was: map<Session, Book>, ghost log: seq<Effect>, ghost quiet: bool, ghost smooth: bool)
      returns (r: EngineResult<Checked>, ghost begun: Option<Publication>, ghost leak: set<Handle>, ghost start: Option<Moment>)
    requires rt.Valid() && s in rt.sessions && rt.sessions[s].proof.Some?
    requires AllWellFormed(was) && SameTrees(was, rt.sessions) && was[s].proof.Some? && host.log == log
    requires found.Ok? && found.value.Some? ==>
               rt.Sound() && Fruitful(rt.actor.rocq, rt.sessions, was, s, fragments, refusals, trace, found.value.value, before, rt.actor.process)
    requires !(found.Ok? && found.value.Some?) ==>
               Fruitless(host.script, rt.actor.rocq, log, was, rt.sessions, s, fragments, trace, Unfound(found, base, refusals), rt.actor.epoch)
    requires quiet ==> found.Ok? && found.value.Some? && refusals == [] && host.Still(5)
                       && Finishing(rt.actor.rocq, rt.sessions, before, s, host.Disk(), fragments[0])
    requires smooth ==> quiet && WillPublish(host.script, rt.actor.rocq, host.Clock() + 5, host.Disk(), was[s].proof.value, fragments[0])
    modifies rt, rt.actor, host
    ensures if found.Ok? && found.value.Some? then
              && Upheld(rt, host, r) && SparedSince(rt, before) && (r.Ok? ==> r.value.Selected? && host.request.Committed?)
              && (Intact(r) && !rt.actor.silentLoss ==> rt.Loose() <= Orphans(old(rt.sessions), before) + leak)
            else r == Unfound(found, base, refusals) && Unmoved(rt, host)
    ensures r.Err? ==> SameTrees(was, rt.sessions)
    ensures r.Ok? ==> Chosen(rt.actor.rocq, was, rt.sessions, s, fragments, trace, r.value)
    ensures leak <= rt.Loose()
    ensures start.None? ==> host.era == old(host.era)
    ensures start.Some? ==> host.Passed(start.value) && start.value.request.Committed?
    ensures Started(host.script, rt.actor.rocq, was[s].proof.value, fragments, trace, r, begun, leak, start)
    ensures Recorded(host.script, rt.actor.rocq, log, host.log, host.Clock(), was[s].proof.value, fragments, r, rt.actor.epoch, begun, start)
    ensures r.Ok? ==> r.value.refusals == refusals
    ensures quiet ==> start.Some? && start.value.clock == old(host.Clock()) + 5 && r.Ok? && r.value.Selected? && r.value.index == 0
    ensures smooth ==> r == Ok(Selected(0, None, [], None))
  {
    begun, leak, start := None, {}, None;
    if found.Err? || found.value.None? { return Unfound(found, base, refusals), begun, leak, start; }
    r, begun, leak, start := TakeFirst(rt, host, s, fragments, refusals, found.value.value, trace, before, was, log, quiet, smooth);
  }

  /** Nothing at all happened. */
  twostate predicate Unmoved(rt: ProjectRuntime, host: Host)
    reads rt, rt.actor, host
  {
    && rt.sessions == old(rt.sessions) && rt.actor.process == old(rt.actor.process) && rt.actor.epoch == old(rt.actor.epoch)
    && rt.actor.silentLoss == old(rt.actor.silentLoss) && host.request == old(host.request) && host.Clock() == old(host.Clock())
  }

  /** One alternative was accepted, the first not refused; its state is pending on top of `before`. */
  ghost predicate Fruitful(rocq: Rocq, books: map<Session, Book>, was: map<Session, Book>, s: Session, fragments: seq<Text>,
                           refusals: seq<Refusal>, trace: seq<Evaluation>, step: Step, before: Option<Process>, now: Option<Process>)
    requires s in was && was[s].proof.Some?
  {
    && |refusals| < |fragments| && |trace| == |refusals| + 1 && trace[|refusals|].answer == Passed(step)
    && AllEvaluated(rocq, was[s].proof.value, fragments, trace) && AllRefused(refusals, trace)
    && Ready(books, s) && trace[|refusals|].from == BaseState(books, before, s)
    && Pending(rocq, books, s, was[s].proof.value.current, fragments[|refusals|], step, before, now)
  }

  /** The answer when no alternative was accepted. */
  function Unfound(found: EngineResult<Option<Step>>, base: Id, refusals: seq<Refusal>): EngineResult<Checked> {
    if found.Err? then Err(found.error) else Ok(NothingAccepted(base, refusals))
  }

  /** `FirstAccepted`, with what follows when nothing was accepted, and in a quiet world. */
  method FindFirst(rt: ProjectRuntime, host: Host, s: Session, fragments: seq<Text>, deadline: bool, ghost was: map<Session, Book>,
                   ghost log: seq<Effect>, ghost quiet: bool)
      returns (r: EngineResult<Option<Step>>, refusals: seq<Refusal>, ghost trace: seq<Evaluation>, ghost before: Option<Process>)
    requires rt.Sound() && s in rt.sessions && rt.sessions[s].proof.Some?
    requires AllWellFormed(was) && SameTrees(was, rt.sessions)
    requires quiet ==> fragments != [] && host.Still(8) && Finishing(rt.actor.rocq, rt.sessions, rt.actor.process, s, host.Disk(), fragments[0])
    modifies rt`sessions, rt.actor, host`since, host`request
    ensures Guarded(rt, host, r) && OnlyInterrupted(old(host.request), host.request)
    ensures SameTrees(was, rt.sessions) && rt.sessions[s].proof.Some? && was[s].proof.Some?
    ensures r.Ok? && r.value.Some? ==>
              && rt.Sound() && Rests(rt, before)
              && Fruitful(rt.actor.rocq, rt.sessions, was, s, fragments, refusals, trace, r.value.value, before, rt.actor.process)
    ensures !(r.Ok? && r.value.Some?) ==>
              && (Intact(r) && !rt.actor.silentLoss ==> rt.Loose() <= old(rt.Loose()))
              && Fruitless(host.script, rt.actor.rocq, log, was, rt.sessions, s, fragments, trace,
                           Unfound(r, was[s].proof.value.current, refusals), rt.actor.epoch)
    ensures AttemptTimedOut in refusals ==> deadline && old(rt.actor.epoch) < rt.actor.epoch
    ensures quiet ==> r.Ok? && r.value.Some? && refusals == [] && host.Clock() == old(host.Clock()) + 3 && host.Disk() == old(host.Disk()) && host.Still(5)
                      && Finishing(rt.actor.rocq, rt.sessions, before, s, host.Disk(), fragments[0])
  {
    SameCurrent(was, rt.sessions, s);
    r, refusals, trace, before := FirstAccepted(rt, host, s, fragments, deadline, was, quiet);
    if !(r.Ok? && r.value.Some?) {
      NothingTaken(host.script, rt.actor.rocq, log, was, rt.sessions, s, fragments, trace, refusals,
                   Unfound(r, was[s].proof.value.current, refusals), rt.actor.epoch);
    }
  }

  /** The first alternative not refused is the one selected. */
  method TakeFirst(rt: ProjectRuntime, host: Host, s: Session, fragments: seq<Text>, refusals: seq<Refusal>, step: Step,
                   ghost trace: seq<Evaluation>, ghost before: Option<Process>, ghost was: map<Session, Book>, ghost log: seq<Effect>,
                   ghost quiet: bool, ghost smooth: bool)
      returns (r: EngineResult<Checked>, ghost begun: Option<Publication>, ghost leak: set<Handle>, ghost start: Option<Moment>)
    requires rt.Sound() && s in rt.sessions && rt.sessions[s].proof.Some?
    requires AllWellFormed(was) && SameTrees(was, rt.sessions) && was[s].proof.Some? && host.log == log
    requires |refusals| < |fragments| && |trace| == |refusals| + 1 && trace[|refusals|].answer == Passed(step)
    requires AllEvaluated(rt.actor.rocq, was[s].proof.value, fragments, trace) && AllRefused(refusals, trace)
    requires Ready(rt.sessions, s) && trace[|refusals|].from == BaseState(rt.sessions, before, s)
    requires Pending(rt.actor.rocq, rt.sessions, s, was[s].proof.value.current, fragments[|refusals|], step, before, rt.actor.process)
    requires quiet ==> host.Still(5) && Finishing(rt.actor.rocq, rt.sessions, before, s, host.Disk(), fragments[|refusals|])
    requires smooth ==> quiet && WillPublish(host.script, rt.actor.rocq, host.Clock() + 5, host.Disk(), was[s].proof.value, fragments[|refusals|])
    modifies rt, rt.actor, host
    ensures Upheld(rt, host, r)
    ensures SparedSince(rt, before)
    ensures r.Err? ==> SameTrees(was, rt.sessions)
    ensures r.Ok? ==> r.value.Selected? && r.value.index == |refusals| && host.request.Committed?
                      && Chosen(rt.actor.rocq, was, rt.sessions, s, fragments, trace, r.value)
    ensures Intact(r) && !rt.actor.silentLoss ==> rt.Loose() <= Orphans(old(rt.sessions), before) + leak
    ensures leak <= rt.Loose()
    ensures start.None? ==> host.era == old(host.era)
    ensures start.Some? ==> host.Passed(start.value) && start.value.request.Committed?
    ensures Started(host.script, rt.actor.rocq, was[s].proof.value, fragments, trace, r, begun, leak, start)
    ensures Recorded(host.script, rt.actor.rocq, log, host.log, host.Clock(), was[s].proof.value, fragments, r, rt.actor.epoch, begun, start)
    ensures r.Ok? ==> r.value.refusals == refusals
    ensures quiet ==> start.Some? && start.value.clock == old(host.Clock()) + 5
    ensures smooth ==> r == Ok(Selected(|refusals|, None, refusals, None))
  {
    var index := |refusals|;
    var selected;
    selected, begun, leak, start := SelectSince(rt, host, s, fragments[index], step, before, was, quiet, smooth);
    if selected.Err? { return Err(selected.error), begun, leak, start; }
    StartedOne(host.script, rt.actor.rocq, was[s].proof.value, fragments, trace, refusals, selected.value.0, selected.value.1, begun, leak, start);
    ChosenOne(rt.actor.rocq, was, rt.sessions, s, fragments, trace, refusals, selected.value.0, selected.value.1);
    r := Ok(Selected(index, selected.value.0, refusals, selected.value.1));
  }

  lemma LooseBefore(first: set<Handle>, mid: set<Handle>, last: set<Handle>, leak: set<Handle>)
    ensures mid <= first && last <= mid + leak ==> last <= first + leak
  {
  }

  /** Nothing was selected, so nothing was published. */
  lemma NothingTaken(script: nat -> Event, rocq: Rocq, log: seq<Effect>, before: map<Session, Book>, after: map<Session, Book>, s: Session,
                     fragments: seq<Text>, trace: seq<Evaluation>, refusals: seq<Refusal>, r: EngineResult<Checked>, epoch: nat)
    requires s in before && before[s].proof.Some? && AllEvaluated(rocq, before[s].proof.value, fragments, trace)
    requires AllRefused(refusals, trace) && SameTrees(before, after)
    requires r.Ok? ==> r.value == NothingAccepted(before[s].proof.value.current, refusals) && |refusals| == |trace| == |fragments|
    ensures Fruitless(script, rocq, log, before, after, s, fragments, trace, r, epoch)
  {
  }

  ghost predicate Fruitless(script: nat -> Event, rocq: Rocq, log: seq<Effect>, before: map<Session, Book>, after: map<Session, Book>, s: Session,
                            fragments: seq<Text>, trace: seq<Evaluation>, r: EngineResult<Checked>, epoch: nat)
    requires s in before && before[s].proof.Some?
  {
    && (r.Ok? ==> Chosen(rocq, before, after, s, fragments, trace, r.value))
    && Started(script, rocq, before[s].proof.value, fragments, trace, r, None, {}, None)
    && Recorded(script, rocq, log, log, 0, before[s].proof.value, fragments, r, epoch, None, None)
  }

  lemma StartedOne(script: nat -> Event, rocq: Rocq, proof: ProofSession, fragments: seq<Text>, trace: seq<Evaluation>, refusals: seq<Refusal>,
                   checkpoint: Option<Id>, error: Option<ErrorKind>, begun: Option<Publication>, leak: set<Handle>, start: Option<Moment>)
    requires |refusals| < |fragments| && |trace| == |refusals| + 1 && trace[|refusals|].answer.Passed?
    requires LeftBehind(script, start, proof.target, PathWith(proof, fragments[|refusals|]), leak)
    requires start.Some? ==> trace[|refusals|].answer.step.finished
                             && ClosesAfter(rocq, trace[|refusals|].from, fragments[|refusals|], proof.target.kind)
    requires start.None? ==> begun.None? && checkpoint.Some? && (error.Some? <==> trace[|refusals|].answer.step.finished)
    ensures Started(script, rocq, proof, fragments, trace, Ok(Selected(|refusals|, checkpoint, refusals, error)), begun, leak, start)
  {
  }

  lemma ChosenOne(rocq: Rocq, before: map<Session, Book>, after: map<Session, Book>, s: Session, fragments: seq<Text>,
                  trace: seq<Evaluation>, refusals: seq<Refusal>, checkpoint: Option<Id>, error: Option<ErrorKind>)
    requires s in before && before[s].proof.Some? && AllEvaluated(rocq, before[s].proof.value, fragments, trace)
    requires AllRefused(refusals, trace) && |trace| == |refusals| + 1 && trace[|refusals|].answer.Passed?
    requires Advanced(before, after, s, trace[|refusals|].answer.step, fragments[|refusals|], checkpoint)
    requires (error.None? && checkpoint.None? ==> trace[|refusals|].answer.step.finished) && error != Some(RequestCancelled)
    ensures Chosen(rocq, before, after, s, fragments, trace, Selected(|refusals|, checkpoint, refusals, error))
  {
  }

  /** `Select`, told about any earlier form of the same graphs. */
  method SelectSince(rt: ProjectRuntime, host: Host, s: Session, fragment: Text, step: Step, ghost before: Option<Process>,
                     ghost was: map<Session, Book>, ghost quiet: bool := false, ghost smooth: bool := false)
      returns (r: EngineResult<(Option<Id>, Option<ErrorKind>)>, ghost begun: Option<Publication>, ghost leak: set<Handle>,
               ghost start: Option<Moment>)
    requires rt.Sound() && s in rt.sessions && rt.sessions[s].proof.Some?
    requires AllWellFormed(was) && SameTrees(was, rt.sessions) && was[s].proof.Some?
    requires Pending(rt.actor.rocq, rt.sessions, s, was[s].proof.value.current, fragment, step, before, rt.actor.process)
    requires quiet ==> host.Still(5) && Finishing(rt.actor.rocq, rt.sessions, before, s, host.Disk(), fragment)
    requires smooth ==> quiet && WillPublish(host.script, rt.actor.rocq, host.Clock() + 5, host.Disk(), was[s].proof.value, fragment)
    modifies rt, rt.actor, host
    ensures Upheld(rt, host, r)
    ensures SparedSince(rt, before)
    ensures r.Err? ==> SameTrees(was, rt.sessions) && host.log == old(host.log)
    ensures r.Ok? ==> host.request.Committed? && r.value.1 != Some(RequestCancelled)
                      && Advanced(was, rt.sessions, s, step, fragment, r.value.0)
    ensures Intact(r) && !rt.actor.silentLoss ==> rt.Loose() <= Orphans(old(rt.sessions), before) + leak
    ensures leak <= rt.Loose()
    ensures start.None? ==> host.era == old(host.era)
    ensures start.Some? ==> host.Passed(start.value) && start.value.request.Committed?
    ensures LeftBehind(host.script, start, was[s].proof.value.target, PathWith(was[s].proof.value, fragment), leak)
    ensures start.Some? ==> r.Ok? && step.finished && Ready(old(rt.sessions), s)
                            && ClosesAfter(rt.actor.rocq, BaseState(old(rt.sessions), before, s), fragment, was[s].proof.value.target.kind)
    ensures start.None? ==> begun.None? && (r.Ok? ==> r.value.0.Some? && (r.value.1.Some? <==> step.finished))
    ensures begun.None? ==> host.log == old(host.log)
    ensures begun.Some? ==> r.Ok? && Published(was[s].proof.value, fragment, begun.value)
                            && WroteOnly(old(host.log), host.log, begun.value.prepared, begun.value.outcome)
    ensures r.Ok? && r.value == (None, None) ==>
              step.finished && begun.Some? && start.Some?
              && CompletedFrom(host.script, rt.actor.rocq, start.value, old(host.log), host.log, host.Clock(), was[s].proof.value.target,
                               rt.actor.epoch, begun.value)
    ensures quiet ==> start.Some? && start.value.clock == old(host.Clock()) + 5
    ensures smooth ==> r == Ok((None, None))
  {
    hide Finishing, CompletedFrom, ClosesAfter, Pending, LeftBehind, WroteOnly, Coherent, PathWith, Unhindered;
    ghost var books := rt.sessions;
    SameSelection(was, books, s);
    r, begun, leak, start := Select(rt, host, s, fragment, step, before, quiet, smooth);
    if r.Ok? {
      AdvancedBefore(was, books, rt.sessions, s, step, fragment, r.value.0);
    }
  }

  lemma SameCurrent(was: map<Session, Book>, books: map<Session, Book>, s: Session)
    requires SameTrees(was, books) && s in books && books[s].proof.Some?
    ensures was[s].proof.Some? && was[s].proof.value.current == books[s].proof.value.current
  {
    assert SameTree(was[s], books[s]);
  }

  lemma SameSelection(was: map<Session, Book>, books: map<Session, Book>, s: Session)
    requires AllWellFormed(was) && AllWellFormed(books) && SameTrees(was, books) && s in was && was[s].proof.Some?
    ensures books[s].proof.Some? && Tree(was[s].proof.value) && Tree(books[s].proof.value)
    ensures books[s].proof.value.current == was[s].proof.value.current
    ensures books[s].proof.value.target == was[s].proof.value.target
    ensures forall fragment :: PathWith(books[s].proof.value, fragment) == PathWith(was[s].proof.value, fragment)
  {
    assert WellFormed(was[s]) && WellFormed(books[s]) && SameTree(was[s], books[s]);
    SameNodesSameFragments(was[s].proof.value, books[s].proof.value, was[s].proof.value.current);
  }
}
