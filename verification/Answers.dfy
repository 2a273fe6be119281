/** What can be asked of a session, what can be answered, and what an answer means. */
module Answers {
  import opened Outcomes
  import opened Sources
  import opened Checkpoints
  import opened Prover
  import opened Coherence
  import opened Hosts
  import opened Engine
  import opened Splicing
  import opened Writeback
  import opened Runtime
  import opened Attempts
  import opened Publishing
  import opened Checking
  import opened Tools

  datatype Request =
    | ListFiles
    | LookIn(files: seq<File>)
    | ProveIt(file: File, name: seq<string>)
    | DeclareIt(file: File, name: seq<string>, kind: Kind, header: Text)
    | AbandonIt(file: File, name: seq<string>)
    | CheckThese(fragments: seq<Text>, deadline: bool)
    | TryThese(fragments: seq<Text>, deadline: bool)
    | RewindTo(to: Destination)
    | ShowGoals
    | Ask(file: File, name: seq<string>, command: Text)
    | AskAt(file: File, name: seq<string>, command: Text)
    | AskInProof(command: Text)
    | UnknownTool

  datatype Reply =
    | Done
    | Proved(proving: Proving)
    | Declared(id: Id)
    | Checked(checked: Checked)
    | Tried(tried: seq<Tried>)
    | At(id: Id)

  function Map<T>(r: EngineResult<T>, f: T -> Reply): EngineResult<Reply> {
    match r
    case Ok(v) => Ok(f(v))
    case Err(k) => Err(k)
  }

  /** Each tool answers in its own shape. */
  predicate Fits(request: Request, reply: Reply) {
    match request
    case CheckThese(_, _) => reply.Checked?
    case TryThese(fragments, _) => reply.Tried? && |reply.tried| == |fragments|
    case ProveIt(_, _) => reply.Proved?
    case DeclareIt(_, _, _, _) => reply.Declared?
    case RewindTo(to) => reply.At? && (to.ToCheckpoint? ==> reply.id == to.id)
    case ShowGoals => reply.At?
    case UnknownTool => false
    case _ => reply.Done?
  }

  /** What a request put at stake: a publication or a validation of a complete declaration, begun at some moment. */
  datatype Peril = Safe | Publication(at: Moment, target: Target, path: seq<Text>) | Validation(glance: Glance)

  /**
   * Exactly the exits that leave exported states without an owner: a publication whose source was
   * found changed before the epoch was given up, or that got stuck; and a validation whose first
   * look missed.
   */
  predicate Spilling(script: nat -> Event, peril: Peril) {
    match peril
    case Safe => false
    case Publication(at, target, path) => Spills(script, at, target, path)
    case Validation(glance) => Misses(script, Some(glance))
  }

  /** The answer says, outside or inside, that the request was cancelled. */
  predicate SaysCancelled(r: EngineResult<Reply>) {
    || r == Err(RequestCancelled)
    || (r.Ok? && r.value.Checked? && r.value.checked.Selected? && r.value.checked.error == Some(RequestCancelled))
  }

  /** At some event of the stretch before `to` the target's file held the bytes the proof was begun on. */
  ghost predicate HeldEarlier(script: nat -> Event, era: Era, from: nat, to: nat, target: Target) {
    exists t: nat :: from <= t < to && Holds(script, t, era.At(script, t), target)
  }

  /** The answer is a selection, and this is the alternative it names. */
  predicate Selects(request: Request, r: EngineResult<Reply>) {
    && request.CheckThese? && r.Ok? && r.value.Checked? && r.value.checked.Selected?
    && r.value.checked.index < |request.fragments|
  }

  /**
   * What a request of a session with this book lost, and exactly when. A publication is that of the
   * selected alternative on the session's own proof, whose source the request had seen in place, and
   * it began at a moment of this very request, after the commit; a look is for the declaration named,
   * in the bytes just read. Of both the disk is the one the script gives.
   */
  ghost predicate Explained(script: nat -> Event, era: Era, from: nat, to: nat, book: Book, request: Request, r: EngineResult<Reply>,
                            leak: set<Handle>, peril: Peril)
  {
    match peril
    case Safe => leak == {} && (Selects(request, r) ==> r.value.checked.checkpoint.Some?)
    case Publication(at, target, path) =>
      && Selects(request, r) && book.proof.Some? && target == book.proof.value.target
      && path == PathWith(book.proof.value, request.fragments[r.value.checked.index])
      && Within(script, era, from, to, at) && at.request.Committed? && HeldEarlier(script, era, from, at.clock, target)
      && (leak != {} <==> Spills(script, at, target, path))
    case Validation(glance) =>
      && request.ProveIt? && Within(script, era, from, to, glance.at) && Reads(glance, request.file, request.name)
      && (leak != {} ==> Misses(script, Some(glance))) && (Misses(script, Some(glance)) ==> r == Err(DeclarationChanged))
  }

  /** What did not spill left nothing behind. */
  lemma UnspiltIsKept(script: nat -> Event, era: Era, from: nat, to: nat, book: Book, request: Request, r: EngineResult<Reply>,
                      leak: set<Handle>, peril: Peril)
    requires Explained(script, era, from, to, book, request, r, leak, peril)
    ensures !Spilling(script, peril) ==> leak == {}
  {
  }

  // ---------------------------------------------------------------- what an answer means

  /**
   * What a tool saw on its way to its answer: the environment and the epoch at its end, every alternative
   * it evaluated, the publication it began, the proof it opened, what stood behind a completed one, the
   * state it asked in and when, and the builds it started from `start` with these fingerprints remembered.
   */
  datatype Account = Account(
    env: Option<Environment>,
    epoch: nat,
    evaluations: seq<Evaluation>,
    begun: Option<Publication>,
    root: Option<Opened>,
    backing: Option<Backing>,
    asked: RocqState,
    at: Moment,
    start: Moment,
    artifacts: map<File, Fingerprint>,
    rounds: seq<Rebuilt>)

  /** Nothing in particular was seen, in this environment and epoch. */
  function Blank(env: Option<Environment>, epoch: nat, m: Moment, artifacts: map<File, Fingerprint>): Account {
    Account(env, epoch, [], None, None, None, RocqState(0), m, m, artifacts, [])
  }

  /**
   * What a `check` answered and did. A publication began exactly when the selected state finishes the proof
   * and the generated terminator was accepted there; otherwise a finishing selection answers why not. What
   * was written is the selected path, spares every other declaration, and, if the answer says that the
   * proof was published, everything that was seen of it afterwards is as it should be.
   */
  ghost predicate ChecksOut(script: nat -> Event, rocq: Rocq, to: nat, before: map<Session, Book>, after: map<Session, Book>, log: seq<Effect>,
                            later: seq<Effect>, s: Session, fragments: seq<Text>, checked: Checked, peril: Peril, acc: Account)
  {
    && Chosen(rocq, before, after, s, fragments, acc.evaluations, checked)
    && (checked.Selected? && checked.checkpoint.Some? ==> after[s].proof.Some? && after[s].proof.value.current == checked.checkpoint.value)
    && PublishedOnly(log, later, acc.begun)
    && (peril.Publication? ==> checked.Selected? && Ends(rocq, before[s].proof.value.target.kind, fragments, checked, acc.evaluations))
    && (!peril.Publication? ==> acc.begun.None?
                                && (checked.Selected? ==> checked.checkpoint.Some?
                                                          && (checked.error.Some? <==> acc.evaluations[checked.index].answer.step.finished)))
    && (acc.begun.Some? ==> checked.Selected? && checked.index < |fragments| && peril.Publication?
                            && Rewrites(rocq, before[s].proof.value, fragments[checked.index], acc.begun.value))
    && (checked.Selected? && checked.checkpoint.None? && checked.error.None? ==>
          acc.begun.Some? && peril.Publication?
          && PublishedFully(script, rocq, peril.at, log, later, to, before[s].proof.value.target, acc.epoch, acc.begun.value))
  }

  /** The selected alternative finishes the proof, and the terminator was accepted after it. */
  ghost predicate Ends(rocq: Rocq, kind: Kind, fragments: seq<Text>, checked: Checked, trace: seq<Evaluation>) {
    && checked.Selected? && checked.index < |trace| && checked.index < |fragments| && trace[checked.index].answer.Passed?
    && trace[checked.index].answer.step.finished
    && ClosesAfter(rocq, trace[checked.index].from, fragments[checked.index], kind)
  }

  /** The publication was of the selected path and of nothing else. */
  ghost predicate Rewrites(rocq: Rocq, proof: ProofSession, fragment: Text, done: Publication) {
    && Checking.Published(proof, fragment, done) && Harmless(rocq, proof.target, done.prepared.replacement)
    && Writes(proof.target, PathWith(proof, fragment), done.prepared.replacement)
  }

  /** What opening or validating a declaration answered and did. */
  ghost predicate ProvesOut(script: nat -> Event, rocq: Rocq, era: Era, to: nat, before: map<Session, Book>, after: map<Session, Book>,
                            log: seq<Effect>, later: seq<Effect>, s: Session, file: File, name: seq<string>, proving: Proving, peril: Peril,
                            acc: Account)
  {
    match proving
    case Began(id) =>
      && acc.root.Some? && Opens(before, after, s, acc.root.value, id) && Existing(acc.root.value.target, file, name)
      && FoundIn(rocq, acc.env, acc.root.value.target, false)
    case Completed =>
      && SameTrees(before, after) && acc.backing.Some? && peril.Validation?
      && Founded(script, rocq, era, log, later, to, acc.epoch, Some(peril.glance), acc.backing.value)
  }

  /** What moving the selection answered and did. */
  ghost predicate MovesOut(before: map<Session, Book>, after: map<Session, Book>, s: Session, to: Destination, id: Id) {
    && Moved(before, after, s, id) && after[s].proof.Some? && after[s].proof.value.current == id
    && match to
       case Back(steps) => WellFormed(before[s]) && before[s].StepsBack(steps) == Ok(id)
       case ToCheckpoint(wanted) => id == wanted
  }

  /**
   * What an answer means: what the request did to the graphs and the files between `from` and `to`, and what
   * the answer was read off. `before` and `after` are the books of the project, `log` and `later` the record.
   */
  ghost predicate Does(script: nat -> Event, rocq: Rocq, era: Era, from: nat, to: nat, before: map<Session, Book>, after: map<Session, Book>,
                       log: seq<Effect>, later: seq<Effect>, s: Session, request: Request, reply: Reply, peril: Peril, acc: Account)
    requires s in before
  {
    && Fits(request, reply) && (!request.CheckThese? ==> Calm(log, later))
    && match request
       case ListFiles => SameTrees(before, after)
       case LookIn(files) =>
         && SameTrees(before, after) && During(script, era, from, to, acc.start)
         && Told(script, acc.start, files, acc.artifacts, acc.rounds, Settled)
       case ProveIt(file, name) => ProvesOut(script, rocq, era, to, before, after, log, later, s, file, name, reply.proving, peril, acc)
       case DeclareIt(file, name, kind, header) =>
         && acc.root.Some? && Opens(before, after, s, acc.root.value, reply.id) && NewTarget(acc.root.value.target, file, name, kind, header)
         && AtInsertion(rocq, acc.env, acc.root.value.target)
       case AbandonIt(file, name) => Mine(before[s], file, name) && SameTrees(Cleared(before, s), after) && after[s].proof.None?
       case CheckThese(fragments, deadline) =>
         && ChecksOut(script, rocq, to, before, after, log, later, s, fragments, reply.checked, peril, acc)
         && (AttemptTimedOut in reply.checked.refusals ==> deadline)
       case TryThese(fragments, deadline) =>
         && (NotReached(AttemptTimedOut) in reply.tried ==> deadline)
         && SameTrees(before, after) && before[s].proof.Some? && AllReported(reply.tried, acc.evaluations)
         && AllEvaluated(rocq, before[s].proof.value, fragments, acc.evaluations)
       case RewindTo(to) => MovesOut(before, after, s, to, reply.id)
       case ShowGoals => SameTrees(before, after) && before[s].proof.Some? && reply.id == before[s].proof.value.current
       case Ask(file, name, command) =>
         && SameTrees(before, after) && rocq.step(acc.asked, command).Accepted?
         && if Mine(before[s], file, name) then IsSelected(rocq, acc.env, before, s, acc.asked)
            else During(script, era, from, to, acc.at) && IsPlaced(rocq, acc.env, acc.at, file, name, acc.asked)
       case AskAt(file, name, command) =>
         && SameTrees(before, after) && rocq.step(acc.asked, command).Accepted?
         && During(script, era, from, to, acc.at) && IsPlaced(rocq, acc.env, acc.at, file, name, acc.asked)
       case AskInProof(command) =>
         SameTrees(before, after) && rocq.step(acc.asked, command).Accepted? && IsSelected(rocq, acc.env, before, s, acc.asked)
       case UnknownTool => false
  }

  /** What the answer is, and that only a `check` may write. */
  lemma DoesFit(script: nat -> Event, rocq: Rocq, era: Era, from: nat, to: nat, before: map<Session, Book>, after: map<Session, Book>,
                log: seq<Effect>, later: seq<Effect>, s: Session, request: Request, reply: Reply, peril: Peril, acc: Account)
    requires s in before && Does(script, rocq, era, from, to, before, after, log, later, s, request, reply, peril, acc)
    ensures Fits(request, reply) && (request.CheckThese? || Calm(log, later))
  {
  }

  // ---------------------------------------------------------------- told from an earlier point

  /** The same answer seen from an earlier point, before which only caches had changed. */
  lemma DoesEarlier(script: nat -> Event, rocq: Rocq, era: Era, start: nat, from: nat, to: nat, was: map<Session, Book>, before: map<Session, Book>,
                    after: map<Session, Book>, log: seq<Effect>, later: seq<Effect>, s: Session, request: Request, reply: Reply, peril: Peril,
                    acc: Account)
    requires start <= from && AllWellFormed(was) && AllWellFormed(before) && SameTrees(was, before) && s in was
    requires Does(script, rocq, era, from, to, before, after, log, later, s, request, reply, peril, acc)
    ensures Does(script, rocq, era, start, to, was, after, log, later, s, request, reply, peril, acc)
  {
    hide ChecksOut, ProvesOut, MovesOut, Told, AllEvaluated, IsSelected, IsPlaced, Opens;
    assert SameTree(was[s], before[s]);
    match request
    case ProveIt(file, name) => ProvesEarlier(script, rocq, era, to, was, before, after, log, later, s, file, name, reply.proving, peril, acc);
    case DeclareIt(_, _, _, _) => OpensBefore(was, before, after, s, acc.root.value, reply.id);
    case AbandonIt(_, _) => ClearedEarlier(was, before, after, s);
    case CheckThese(fragments, _) => ChecksEarlier(script, rocq, to, was, before, after, log, later, s, fragments, reply.checked, peril, acc);
    case TryThese(fragments, _) =>
      SameTreesChain(was, before, after);
      EvaluatedEarlier(rocq, was, before, s, fragments, acc.evaluations);
    case RewindTo(to) => MovesEarlier(was, before, after, s, to, reply.id);
    case Ask(_, _, _) =>
      SameTreesChain(was, before, after);
      SelectedEarlier(rocq, acc.env, was, before, s, acc.asked);
    case AskInProof(_) =>
      SameTreesChain(was, before, after);
      SelectedEarlier(rocq, acc.env, was, before, s, acc.asked);
    case _ => SameTreesChain(was, before, after);
  }

  lemma ProvesEarlier(script: nat -> Event, rocq: Rocq, era: Era, to: nat, was: map<Session, Book>, before: map<Session, Book>,
                      after: map<Session, Book>, log: seq<Effect>, later: seq<Effect>, s: Session, file: File, name: seq<string>,
                      proving: Proving, peril: Peril, acc: Account)
    requires SameTrees(was, before) && ProvesOut(script, rocq, era, to, before, after, log, later, s, file, name, proving, peril, acc)
    ensures ProvesOut(script, rocq, era, to, was, after, log, later, s, file, name, proving, peril, acc)
  {
    match proving
    case Began(id) => OpensBefore(was, before, after, s, acc.root.value, id);
    case Completed => SameTreesChain(was, before, after);
  }

  lemma ClearedEarlier(was: map<Session, Book>, before: map<Session, Book>, after: map<Session, Book>, s: Session)
    requires SameTrees(was, before) && s in was && SameTrees(Cleared(before, s), after)
    ensures SameTrees(Cleared(was, s), after)
  {
    assert SameTree(was[s], before[s]);
    SameTreesChain(Cleared(was, s), Cleared(before, s), after);
  }

  lemma EvaluatedEarlier(rocq: Rocq, was: map<Session, Book>, before: map<Session, Book>, s: Session, fragments: seq<Text>, trace: seq<Evaluation>)
    requires AllWellFormed(was) && AllWellFormed(before) && SameTrees(was, before) && s in before && before[s].proof.Some?
    requires AllEvaluated(rocq, before[s].proof.value, fragments, trace)
    ensures s in was && was[s].proof.Some? && AllEvaluated(rocq, was[s].proof.value, fragments, trace)
  {
    assert SameTree(was[s], before[s]) && WellFormed(was[s]) && WellFormed(before[s]);
    SameNodesSameFragments(was[s].proof.value, before[s].proof.value, was[s].proof.value.current);
    forall i | 0 <= i < |trace| ensures Evaluated(rocq, was[s].proof.value, was[s].proof.value.current, fragments[i], trace[i]) {
      assert Evaluated(rocq, before[s].proof.value, before[s].proof.value.current, fragments[i], trace[i]);
    }
  }

  lemma SelectedEarlier(rocq: Rocq, env: Option<Environment>, was: map<Session, Book>, before: map<Session, Book>, s: Session, asked: RocqState)
    requires AllWellFormed(was) && AllWellFormed(before) && SameTrees(was, before)
    ensures IsSelected(rocq, env, before, s, asked) ==> IsSelected(rocq, env, was, s, asked)
  {
    if IsSelected(rocq, env, before, s, asked) {
      assert SameTree(was[s], before[s]) && WellFormed(was[s]) && WellFormed(before[s]);
      SameNodesSameFragments(was[s].proof.value, before[s].proof.value, was[s].proof.value.current);
    }
  }

  lemma MovesEarlier(was: map<Session, Book>, before: map<Session, Book>, after: map<Session, Book>, s: Session, to: Destination, id: Id)
    requires AllWellFormed(was) && AllWellFormed(before) && SameTrees(was, before) && MovesOut(before, after, s, to, id)
    ensures MovesOut(was, after, s, to, id)
  {
    MovedBefore(was, before, after, s, id);
    if to.Back? {
      assert SameTree(was[s], before[s]) && WellFormed(was[s]) && WellFormed(before[s]);
      SameWayBack(was[s], before[s], to.steps);
    }
  }

  /** Counting back does not look at caches. */
  lemma SameWayBack(a: Book, b: Book, steps: nat)
    requires WellFormed(a) && WellFormed(b) && SameTree(a, b)
    ensures a.StepsBack(steps) == b.StepsBack(steps)
  {
    if a.proof.Some? {
      SameNodesSamePath(a.proof.value, b.proof.value, a.proof.value.current);
    }
  }

  lemma ChecksEarlier(script: nat -> Event, rocq: Rocq, to: nat, was: map<Session, Book>, before: map<Session, Book>, after: map<Session, Book>,
                      log: seq<Effect>, later: seq<Effect>, s: Session, fragments: seq<Text>, checked: Checked, peril: Peril, acc: Account)
    requires AllWellFormed(was) && AllWellFormed(before) && SameTrees(was, before)
    requires ChecksOut(script, rocq, to, before, after, log, later, s, fragments, checked, peril, acc)
    ensures ChecksOut(script, rocq, to, was, after, log, later, s, fragments, checked, peril, acc)
  {
    SameSelection(was, before, s);
    EvaluatedEarlier(rocq, was, before, s, fragments, acc.evaluations);
    if checked.Selected? {
      AdvancedBefore(was, before, after, s, acc.evaluations[checked.index].answer.step, fragments[checked.index], checked.checkpoint);
    } else {
      SameTreesChain(was, before, after);
    }
  }
}
