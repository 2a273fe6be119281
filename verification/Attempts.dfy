/** Evaluating proof alternatives from one selected checkpoint, whatever happens to the prover meanwhile. */
module Attempts {
  import opened Outcomes
  import opened Sources
  import opened Checkpoints
  import opened Prover
  import opened Coherence
  import opened Hosts
  import opened Pet
  import opened Engine
  import opened Runtime
  import opened Replay

  datatype Refusal = SentenceRejected | AttemptTimedOut

  datatype Answer = Passed(step: Step) | Declined(refusal: Refusal)

  /** One evaluation as it really happened: the environment and the state the alternative ran from. */
  datatype Evaluation = Evaluation(env: Environment, from: RocqState, answer: Answer)

  /**
   * The alternative ran from what replaying the base checkpoint gives in that environment, and
   * the answer is the one Rocq gives there, unless time ran out.
   */
  ghost predicate Evaluated(rocq: Rocq, proof: ProofSession, base: Id, fragment: Text, e: Evaluation) {
    && Tree(proof) && base in proof.checkpoints
    && rocq.Replay(e.env, proof.target, Fragments(proof, base)) == Some(e.from)
    && Answers(rocq, e.from, fragment, e.answer)
  }

  /** The answer is Rocq's, unless time ran out. */
  ghost predicate Answers(rocq: Rocq, from: RocqState, fragment: Text, answer: Answer) {
    match answer
    case Passed(step) =>
      var verdict := rocq.step(from, fragment);
      verdict.Accepted? && Describes(rocq, step, verdict.state)
    case Declined(SentenceRejected) => rocq.step(from, fragment).Rejected?
    case Declined(AttemptTimedOut) => true
  }

  lemma SameTreesChain(a: map<Session, Book>, b: map<Session, Book>, c: map<Session, Book>)
    requires SameTrees(a, b) && SameTrees(b, c)
    ensures SameTrees(a, c)
  {
  }

  /** What a live base checkpoint denotes, in terms of the graph as it was at any earlier time. */
  lemma BaseMeansReplay(rocq: Rocq, was: map<Session, Book>, now: map<Session, Book>, p: Option<Process>, s: Session, base: Id)
    requires AllWellFormed(was) && SameTrees(was, now) && Coherent(rocq, now, p)
    requires HandleAt(now, s, base).Some?
    ensures p.Some? && HandleAt(now, s, base).value in p.value.exported
    ensures s in was && was[s].proof.Some? && base in was[s].proof.value.checkpoints && Tree(was[s].proof.value)
    ensures rocq.Replay(p.value.env, was[s].proof.value.target, Fragments(was[s].proof.value, base))
            == Some(p.value.exported[HandleAt(now, s, base).value])
  {
    assert WellFormed(was[s]) && SameTree(was[s], now[s]);
    CacheRefinesReplay(rocq, now, p, s, base);
    SameNodesSameFragments(was[s].proof.value, now[s].proof.value, base);
  }

  /** The session has a proof open and its selected checkpoint is live. */
  ghost predicate Ready(books: map<Session, Book>, s: Session) {
    s in books && books[s].proof.Some? && HandleAt(books, s, books[s].proof.value.current).Some?
  }

  /** What the selected checkpoint's handle denotes. */
  ghost function BaseState(books: map<Session, Book>, p: Option<Process>, s: Session): RocqState
    requires Ready(books, s)
  {
    var h := HandleAt(books, s, books[s].proof.value.current).value;
    if h in Table(p) then Table(p)[h] else RocqState(0)
  }

  /** The source of the session's proof is on disk as the proof was begun on it. */
  predicate OnDisk(books: map<Session, Book>, s: Session, disk: map<File, Stored>) {
    s in books && books[s].proof.Some? && Contents(disk, books[s].proof.value.target.file) == Some(books[s].proof.value.target.source)
  }

  /** Nothing stands between the session and the acceptance of the fragment. */
  ghost predicate Willing(rocq: Rocq, books: map<Session, Book>, p: Option<Process>, s: Session, disk: map<File, Stored>, fragment: Text) {
    && Ready(books, s) && OnDisk(books, s, disk) && FragmentAdmitted(fragment)
    && SafeStep(rocq, BaseState(books, p, s), fragment)
  }

  /** The selected checkpoint, made live if it is not. */
  method EnsureCurrentState(rt: ProjectRuntime, host: Host, s: Session) returns (r: EngineResult<(Id, Handle)>)
    requires rt.Sound() && s in rt.sessions
    modifies rt`sessions, rt.actor`process, rt.actor`epoch, rt.actor`silentLoss, host`since, host`request
    ensures Kept(rt, host, r) && OnlyInterrupted(old(host.request), host.request)
    ensures SameTrees(old(rt.sessions), rt.sessions)
    ensures r.Ok? ==> rt.Sound() && rt.sessions[s].proof.Some? && rt.sessions[s].proof.value.current == r.value.0
                      && HandleAt(rt.sessions, s, r.value.0) == Some(r.value.1)
    ensures Ready(old(rt.sessions), s) ==>
              r.Ok? && rt.sessions == old(rt.sessions) && rt.actor.process == old(rt.actor.process) && host.Waited(0)
  {
    if rt.sessions[s].proof.None? { return Err(InvalidRequest); }
    var proof := rt.sessions[s].proof.value;
    assert WellFormed(rt.sessions[s]);
    if proof.checkpoints[proof.current].petState.Some? {
      return Ok((proof.current, proof.checkpoints[proof.current].petState.value));
    }
    var replayed := ReplayCheckpoint(rt, host, s, proof.current);
    if replayed.Err? { return Err(replayed.error); }
    assert SameTree(old(rt.sessions)[s], rt.sessions[s]);
    r := Ok((proof.current, replayed.value));
  }

  /**
   * An accepted alternative before anyone owns its state: every book is coherent with the process
   * as it was before the run, which exported exactly this one state on top.
   */
  ghost predicate Pending(rocq: Rocq, books: map<Session, Book>, s: Session, base: Id, fragment: Text, step: Step,
                          before: Option<Process>, now: Option<Process>)
  {
    && Coherent(rocq, books, before) && now.Some?
    && HandleAt(books, s, base).Some? && HandleAt(books, s, base).value in Table(before)
    && var verdict := rocq.step(Table(before)[HandleAt(books, s, base).value], fragment);
       && verdict.Accepted? && Describes(rocq, step, verdict.state)
       && Grown(before, now, map[step.state := verdict.state])
  }

  /** Before the run that left a state pending, the same exported states were without an owner as at the start. */
  twostate predicate Rests(rt: ProjectRuntime, new before: Option<Process>)
    reads rt, rt.actor
  {
    && Orphans(rt.sessions, before) <= old(rt.Loose())
    && (rt.actor.epoch == old(rt.actor.epoch) ==> old(rt.Loose()) <= Orphans(rt.sessions, before))
  }

  /**
   * Evaluate one alternative from the selected checkpoint, reacquiring it first: an earlier
   * alternative may have taken the whole epoch with it. `was` is any earlier form of the books.
   */
  method Evaluate(rt: ProjectRuntime, host: Host, s: Session, fragment: Text, deadline: bool, ghost was: map<Session, Book>, ghost quiet: bool := false)
      returns (r: EngineResult<Answer>, ghost e: Evaluation, ghost before: Option<Process>)
    requires rt.Sound() && s in rt.sessions && rt.sessions[s].proof.Some?
    requires AllWellFormed(was) && SameTrees(was, rt.sessions)
    requires quiet ==> host.Still(3) && Willing(rt.actor.rocq, rt.sessions, rt.actor.process, s, host.Disk(), fragment)
    modifies rt`sessions, rt.actor, host`since, host`request
    ensures Guarded(rt, host, r) && OnlyInterrupted(old(host.request), host.request) && SameTrees(was, rt.sessions)
    ensures !(r.Ok? && r.value.Passed?) && Intact(r) && !rt.actor.silentLoss ==> rt.Loose() <= old(rt.Loose())
    ensures s in rt.sessions && rt.sessions[s].proof.Some?
    ensures r.Ok? ==> rt.Sound() && e.answer == r.value
                      && Evaluated(rt.actor.rocq, was[s].proof.value, was[s].proof.value.current, fragment, e)
    ensures r.Ok? && r.value.Passed? ==>
              && Rests(rt, before) && Ready(rt.sessions, s) && e.from == BaseState(rt.sessions, before, s)
              && Pending(rt.actor.rocq, rt.sessions, s, was[s].proof.value.current, fragment, r.value.step, before, rt.actor.process)
    ensures r == Ok(Declined(AttemptTimedOut)) ==> deadline && old(rt.actor.epoch) < rt.actor.epoch
    ensures quiet ==> r.Ok? && r.value.Passed? && rt.sessions == old(rt.sessions) && before == old(rt.actor.process) && host.Waited(3)
  {
    e := Evaluation(0, RocqState(0), Declined(AttemptTimedOut));
    before := rt.actor.process;
    var current := EnsureCurrentState(rt, host, s);
    SameTreesChain(was, old(rt.sessions), rt.sessions);
    if current.Err? { return Err(current.error), e, before; }
    r, e, before := EvaluateLive(rt, host, s, current.value.1, fragment, deadline, was, quiet);
  }

  /** Run the alternative from a live base. */
  method EvaluateLive(rt: ProjectRuntime, host: Host, s: Session, state: Handle, fragment: Text, deadline: bool, ghost was: map<Session, Book>, ghost quiet: bool := false)
      returns (r: EngineResult<Answer>, ghost e: Evaluation, ghost before: Option<Process>)
    requires rt.Sound() && s in rt.sessions && rt.sessions[s].proof.Some?
    requires AllWellFormed(was) && SameTrees(was, rt.sessions)
    requires HandleAt(rt.sessions, s, was[s].proof.value.current) == Some(state)
    requires quiet ==> host.Still(3) && Willing(rt.actor.rocq, rt.sessions, rt.actor.process, s, host.Disk(), fragment)
    modifies rt`sessions, rt.actor, host`since, host`request
    ensures Guarded(rt, host, r) && OnlyInterrupted(old(host.request), host.request) && SameTrees(was, rt.sessions)
    ensures !(r.Ok? && r.value.Passed?) && Intact(r) && !rt.actor.silentLoss ==> rt.Loose() <= old(rt.Loose())
    ensures s in rt.sessions && rt.sessions[s].proof.Some?
    ensures r.Ok? ==> rt.Sound() && e.answer == r.value
                      && Evaluated(rt.actor.rocq, was[s].proof.value, was[s].proof.value.current, fragment, e)
    ensures r.Ok? && r.value.Passed? ==>
              && Rests(rt, before) && Ready(rt.sessions, s) && e.from == BaseState(rt.sessions, before, s)
              && Pending(rt.actor.rocq, rt.sessions, s, was[s].proof.value.current, fragment, r.value.step, before, rt.actor.process)
    ensures r == Ok(Declined(AttemptTimedOut)) ==> deadline && old(rt.actor.epoch) < rt.actor.epoch
    ensures quiet ==> r.Ok? && r.value.Passed? && rt.sessions == old(rt.sessions) && before == old(rt.actor.process) && host.Waited(3)
  {
    before := rt.actor.process;
    BaseMeansReplay(rt.actor.rocq, was, rt.sessions, before, s, was[s].proof.value.current);
    e := Evaluation(before.value.env, before.value.exported[state], Declined(AttemptTimedOut));
    r := RunAndTake(rt, host, s, state, fragment, deadline, was, quiet);
    if r.Ok? {
      e := e.(answer := r.value);
    }
  }

  /** Run the alternative and take what comes of it. */
  method RunAndTake(rt: ProjectRuntime, host: Host, s: Session, state: Handle, fragment: Text, deadline: bool, ghost was: map<Session, Book>,
                    ghost quiet: bool)
      returns (r: EngineResult<Answer>)
    requires rt.Sound() && s in rt.sessions && rt.sessions[s].proof.Some?
    requires AllWellFormed(was) && SameTrees(was, rt.sessions)
    requires HandleAt(rt.sessions, s, was[s].proof.value.current) == Some(state) && state in Table(rt.actor.process)
    requires quiet ==> host.Still(3) && Willing(rt.actor.rocq, rt.sessions, rt.actor.process, s, host.Disk(), fragment)
    modifies rt`sessions, rt.actor, host`since, host`request
    ensures Guarded(rt, host, r) && OnlyInterrupted(old(host.request), host.request) && SameTrees(was, rt.sessions)
    ensures !(r.Ok? && r.value.Passed?) && Intact(r) && !rt.actor.silentLoss ==> rt.Loose() <= old(rt.Loose())
    ensures r.Ok? ==> rt.Sound() && Answers(rt.actor.rocq, Table(old(rt.actor.process))[state], fragment, r.value)
    ensures r.Ok? && r.value.Passed? ==>
              && Rests(rt, old(rt.actor.process)) && HandleAt(rt.sessions, s, was[s].proof.value.current) == Some(state)
              && Pending(rt.actor.rocq, rt.sessions, s, was[s].proof.value.current, fragment, r.value.step, old(rt.actor.process), rt.actor.process)
    ensures r == Ok(Declined(AttemptTimedOut)) ==> deadline && old(rt.actor.epoch) < rt.actor.epoch
    ensures quiet ==> r.Ok? && r.value.Passed? && rt.sessions == old(rt.sessions) && host.Waited(3)
  {
    hide Answers, Describes, Backed;
    ghost var from := Table(rt.actor.process)[state];
    var run := RunTraced(rt.actor, host, rt.sessions[s].proof.value.target, state, fragment, deadline, quiet);
    r := TakeAnswer(rt, s, run, fragment, from, old(rt.actor.process), was);
  }

  /** How a traced run went and left the process: one state more, the same, or gone. */
  ghost predicate Ran(rocq: Rocq, from: RocqState, fragment: Text, run: EngineResult<TracedStep>,
                      before: Option<Process>, now: Option<Process>, silent: bool)
  {
    match run
    case Ok(StepAccepted(step)) =>
      var verdict := rocq.step(from, fragment);
      !silent && verdict.Accepted? && Describes(rocq, step, verdict.state) && Grown(before, now, map[step.state := verdict.state])
    case Ok(StepRejected) => !silent && rocq.step(from, fragment).Rejected? && Same(before, now)
    case Err(k) => (InvalidatesEpoch(k) ==> now == None) && (!InvalidatesEpoch(k) && !silent ==> Same(before, now))
  }

  /** An expired attempt took the epoch with it: every session forgets its handles before the next one. */
  method TakeAnswer(rt: ProjectRuntime, s: Session, run: EngineResult<TracedStep>, ghost fragment: Text, ghost from: RocqState,
                    ghost before: Option<Process>, ghost was: map<Session, Book>)
      returns (r: EngineResult<Answer>)
    requires rt.Valid() && s in rt.sessions && Coherent(rt.actor.rocq, rt.sessions, before)
    requires AllWellFormed(was) && SameTrees(was, rt.sessions)
    requires Ran(rt.actor.rocq, from, fragment, run, before, rt.actor.process, rt.actor.silentLoss)
    modifies rt`sessions, rt.actor`silentLoss
    ensures rt.Valid() && SameTrees(was, rt.sessions) && rt.sessions.Keys == old(rt.sessions.Keys)
    ensures rt.actor.silentLoss ==> old(rt.actor.silentLoss)
    ensures r == Concluded(run) && (r.Ok? ==> rt.Sound() && Answers(rt.actor.rocq, from, fragment, r.value))
    ensures Intact(r) && !rt.actor.silentLoss ==> rt.Sound()
    ensures !Intact(r) ==> rt.actor.process == None
    ensures if r.Ok? && r.value.Passed? then Grown(before, rt.actor.process, map[r.value.step.state := rt.actor.rocq.step(from, fragment).state])
            else Intact(r) && !rt.actor.silentLoss ==> rt.Loose() <= Orphans(old(rt.sessions), before)
    ensures r != Ok(Declined(AttemptTimedOut)) ==> rt.sessions == old(rt.sessions)
    ensures old(rt.Loose()) <= rt.Loose()
  {
    r := Concluded(run);
    ghost var books := rt.sessions;
    if r == Ok(Declined(AttemptTimedOut)) {
      rt.InvalidateProjectStates(s);
      SameTreesChain(was, books, rt.sessions);
    } else if r.Ok? && r.value.Passed? {
      GrowthKeepsCoherence(rt.actor.rocq, books, before, rt.actor.process,
                           map[r.value.step.state := rt.actor.rocq.step(from, fragment).state]);
    } else if Intact(r) && !rt.actor.silentLoss {
      SameKeepsCoherence(rt.actor.rocq, books, before, rt.actor.process);
    }
  }

  /** A rejection and an expired attempt are answers; every other failure ends the request. */
  function Concluded(run: EngineResult<TracedStep>): EngineResult<Answer> {
    match run
    case Ok(StepAccepted(step)) => Ok(Passed(step))
    case Ok(StepRejected) => Ok(Declined(SentenceRejected))
    case Err(k) => if k.ProofStepTimeout? then Ok(Declined(AttemptTimedOut)) else Err(k)
  }

  /** What `check`, `try` and a goal query do first: the source, the build and the base must all be there. */
  method AdmitBase(rt: ProjectRuntime, host: Host, s: Session, ghost quiet: bool := false) returns (r: EngineResult<Id>)
    requires rt.Sound() && s in rt.sessions
    requires quiet ==> host.Still(6) && Ready(rt.sessions, s) && OnDisk(rt.sessions, s, host.Disk())
                       && Current(host.script, host.Clock() + 1, rt.artifacts, rt.sessions[s].proof.value.target.file)
    modifies rt, rt.actor, host`since, host`request, host`log
    ensures Kept(rt, host, r) && Untouched(rt, host) && OnlyInterrupted(old(host.request), host.request)
    ensures r.Ok? ==> rt.Sound() && rt.sessions[s].proof.Some? && rt.sessions[s].proof.value.current == r.value
                      && old(rt.sessions)[s].proof.Some?
                      && Holds(host.script, old(host.Clock()), old(host.Disk()), old(rt.sessions)[s].proof.value.target)
                      && old(host.Clock()) < host.Clock()
    ensures quiet ==> r.Ok? && rt.sessions == old(rt.sessions) && rt.actor.process == old(rt.actor.process) && host.Waited(6)
  {
    if rt.sessions[s].proof.None? { return Err(InvalidRequest); }
    var target := rt.sessions[s].proof.value.target;
    var admitted := AdmitSource(rt, host, s, target, quiet);
    if admitted.Err? { return Err(admitted.error); }
    ghost var mid := rt.sessions;
    r := AdmitGoals(rt, host, s, target, quiet);
    SameTreesChain(old(rt.sessions), mid, rt.sessions);
  }

  /** The same for a list of alternatives, which must be one that may be tried. */
  method AdmitAttempts(rt: ProjectRuntime, host: Host, s: Session, fragments: seq<Text>, ghost quiet: bool := false) returns (r: EngineResult<Id>)
    requires rt.Sound() && s in rt.sessions
    requires quiet ==> AttemptsAdmitted(fragments) && host.Still(6) && Ready(rt.sessions, s) && OnDisk(rt.sessions, s, host.Disk())
                       && Current(host.script, host.Clock() + 1, rt.artifacts, rt.sessions[s].proof.value.target.file)
    modifies rt, rt.actor, host`since, host`request, host`log
    ensures Kept(rt, host, r) && Untouched(rt, host) && OnlyInterrupted(old(host.request), host.request)
    ensures !AttemptsAdmitted(fragments) ==> r == Err(InvalidRequest)
    ensures r.Ok? ==> rt.Sound() && rt.sessions[s].proof.Some? && rt.sessions[s].proof.value.current == r.value
                      && old(rt.sessions)[s].proof.Some? && SameTree(old(rt.sessions)[s], rt.sessions[s])
                      && Holds(host.script, old(host.Clock()), old(host.Disk()), old(rt.sessions)[s].proof.value.target)
                      && old(host.Clock()) < host.Clock()
    ensures quiet ==> r.Ok? && rt.sessions == old(rt.sessions) && rt.actor.process == old(rt.actor.process) && host.Waited(6)
  {
    if !AttemptsAdmitted(fragments) { return Err(InvalidRequest); }
    r := AdmitBase(rt, host, s, quiet);
  }

  /** The source is the one the proof was begun on, and its build is current. */
  method AdmitSource(rt: ProjectRuntime, host: Host, s: Session, target: Target, ghost quiet: bool := false) returns (r: EngineResult<()>)
    requires rt.Sound() && s in rt.sessions
    requires quiet ==> host.Still(4) && Contents(host.Disk(), target.file) == Some(target.source)
                       && Current(host.script, host.Clock() + 1, rt.artifacts, target.file)
    modifies rt, rt.actor, host`since, host`request, host`log
    ensures Kept(rt, host, r) && Untouched(rt, host) && OnlyInterrupted(old(host.request), host.request)
    ensures r.Ok? ==> rt.Sound() && Holds(host.script, old(host.Clock()), old(host.Disk()), target) && old(host.Clock()) < host.Clock()
    ensures quiet ==> r.Ok? && rt.sessions == old(rt.sessions) && rt.actor.process == old(rt.actor.process) && host.Waited(4)
  {
    r := ValidateTarget(host, target);
    if r.Err? { return; }
    r := Reconcile(rt, host, s, target.file, quiet);
  }

  /** The build of a file that starts at `t` leaves what is remembered of it, or, if nothing is, what it finds. */
  predicate Current(script: nat -> Event, t: nat, artifacts: map<File, Fingerprint>, file: File) {
    && script(t).fingerprint.Ok? && script(t + 2).fingerprint.Ok?
    && match Cached(artifacts, file)
       case Some(f) => f == script(t + 2).fingerprint.value
       case None => script(t).fingerprint.value == script(t + 2).fingerprint.value
  }

  /** One consumer. */
  method Reconcile(rt: ProjectRuntime, host: Host, s: Session, file: File, ghost quiet: bool := false) returns (r: EngineResult<()>)
    requires rt.Sound() && s in rt.sessions
    requires quiet ==> host.Still(3) && Current(host.script, host.Clock(), rt.artifacts, file)
    modifies rt, rt.actor, host`since, host`request, host`log
    ensures Kept(rt, host, r) && Untouched(rt, host) && !rt.actor.silentLoss && OnlyInterrupted(old(host.request), host.request)
    ensures r.Ok? ==> rt.Sound()
    ensures rt.sessions == if rt.actor.epoch == old(rt.actor.epoch) then old(rt.sessions) else InvalidateAll(old(rt.sessions))
    ensures quiet ==> r.Ok? && rt.actor.epoch == old(rt.actor.epoch) && rt.actor.process == old(rt.actor.process) && host.Waited(3)
                      && Cached(rt.artifacts, file) == Some(host.script(old(host.Clock()) + 2).fingerprint.value)
  {
    var ending; ghost var trace;
    ghost var start := host.Now();
    OneOccurrence(file);
    if quiet {
      QuietRound(host.script, start);
    }
    r, trace, ending := ReconcileArtifacts(rt, host, s, [file]);
    NothingCrossed(host.script, start, file, old(rt.artifacts), trace, ending);
  }

  /** A build that leaves the remembered fingerprint in place crosses no boundary. */
  lemma NothingCrossed(script: nat -> Event, start: Moment, file: File, was: map<File, Fingerprint>, trace: seq<Rebuilt>, ending: Ending)
    requires Told(script, start, [file], was, trace, ending)
    ensures Current(script, start.clock, was, file) && |trace| == 1 ==>
              !SomeCross(trace) && Cached(Record(was, trace), file) == Some(script(start.clock + 2).fingerprint.value)
  {
    OneOccurrence(file);
    if |trace| == 1 {
      assert trace[0].file == file && SeenAs(script, trace[0]);
      assert trace[..0] == [];
    }
  }

  lemma OneOccurrence(file: File)
    ensures FirstOccurrences([file]) == [file]
  {
    assert [file][..0] == [];
  }

  lemma HeldIsSafe(rocq: Rocq, books: map<Session, Book>, p: Option<Process>, h: Handle)
    requires Coherent(rocq, books, p) && Held(books, h)
    ensures h in Table(p) && rocq.Safe(Table(p)[h])
  {
    var s, c :| HandleAt(books, s, c) == Some(h);
    assert Backed(rocq, books[s].proof.value, c, p);
  }

  method AdmitGoals(rt: ProjectRuntime, host: Host, s: Session, target: Target, ghost quiet: bool := false) returns (r: EngineResult<Id>)
    requires rt.Sound() && s in rt.sessions
    requires quiet ==> host.Still(2) && Ready(rt.sessions, s) && OnDisk(rt.sessions, s, host.Disk())
                       && target == rt.sessions[s].proof.value.target
    modifies rt`sessions, rt.actor`process, rt.actor`epoch, rt.actor`silentLoss, host`since, host`request
    ensures Kept(rt, host, r) && SameTrees(old(rt.sessions), rt.sessions) && OnlyInterrupted(old(host.request), host.request)
    ensures r.Ok? ==> rt.Sound() && rt.sessions[s].proof.Some? && rt.sessions[s].proof.value.current == r.value
    ensures quiet ==> r.Ok? && rt.sessions == old(rt.sessions) && rt.actor.process == old(rt.actor.process) && host.Waited(2)
  {
    var current := EnsureCurrentState(rt, host, s);
    if current.Err? { return Err(current.error); }
    assert HandleAt(rt.sessions, s, current.value.0) == Some(current.value.1);
    var goals := GoalsOf(rt, host, target, current.value.1, quiet);
    if goals.Err? { return Err(goals.error); }
    r := Ok(current.value.0);
  }

  method GoalsOf(rt: ProjectRuntime, host: Host, target: Target, state: Handle, ghost quiet: bool := false) returns (r: EngineResult<()>)
    requires rt.Sound()
    requires quiet ==> host.Still(2) && Contents(host.Disk(), target.file) == Some(target.source) && Held(rt.sessions, state)
    modifies rt.actor`process, rt.actor`epoch, host`since, host`request
    ensures Kept(rt, host, r) && OnlyInterrupted(old(host.request), host.request)
    ensures quiet ==> r.Ok? && rt.actor.process == old(rt.actor.process) && host.Waited(2)
  {
    if quiet {
      HeldIsSafe(rt.actor.rocq, rt.sessions, rt.actor.process, state);
    }
    r := Goals(rt.actor, host, target, state, quiet);
    if Intact(r) {
      SameKeepsCoherence(rt.actor.rocq, rt.sessions, old(rt.actor.process), rt.actor.process);
    }
  }

  /** How the alternatives of one request went. */
  ghost predicate AllEvaluated(rocq: Rocq, proof: ProofSession, fragments: seq<Text>, trace: seq<Evaluation>) {
    && |trace| <= |fragments|
    && forall i :: 0 <= i < |trace| ==> Evaluated(rocq, proof, proof.current, fragments[i], trace[i])
  }

  /** The refusals answer the first alternatives, one each and in order. */
  ghost predicate AllRefused(refusals: seq<Refusal>, trace: seq<Evaluation>) {
    && |refusals| <= |trace|
    && forall i :: 0 <= i < |refusals| ==> trace[i].answer == Declined(refusals[i])
  }

  lemma OneMore(rocq: Rocq, proof: ProofSession, fragments: seq<Text>, trace: seq<Evaluation>, refusals: seq<Refusal>, e: Evaluation)
    requires AllEvaluated(rocq, proof, fragments, trace) && AllRefused(refusals, trace)
    requires |refusals| == |trace| < |fragments| && Evaluated(rocq, proof, proof.current, fragments[|trace|], e)
    ensures AllEvaluated(rocq, proof, fragments, trace + [e]) && AllRefused(refusals, trace + [e])
    ensures e.answer.Declined? ==> AllRefused(refusals + [e.answer.refusal], trace + [e])
  {
  }

  /**
   * Evaluate alternatives until one is accepted. Every one of them, whatever the earlier ones did
   * to the prover, ran from the same selected checkpoint; the accepted one is the first that was
   * not refused, and no tree has changed yet.
   */
  method FirstAccepted(rt: ProjectRuntime, host: Host, s: Session, fragments: seq<Text>, deadline: bool, ghost was: map<Session, Book>, ghost quiet: bool := false)
      returns (r: EngineResult<Option<Step>>, refusals: seq<Refusal>, ghost trace: seq<Evaluation>, ghost before: Option<Process>)
    requires rt.Sound() && s in rt.sessions && rt.sessions[s].proof.Some?
    requires AllWellFormed(was) && SameTrees(was, rt.sessions)
    requires quiet ==> fragments != [] && host.Still(3) && Willing(rt.actor.rocq, rt.sessions, rt.actor.process, s, host.Disk(), fragments[0])
    modifies rt`sessions, rt.actor, host`since, host`request
    ensures Guarded(rt, host, r) && OnlyInterrupted(old(host.request), host.request)
    ensures SameTrees(was, rt.sessions) && rt.sessions[s].proof.Some?
    ensures AllEvaluated(rt.actor.rocq, was[s].proof.value, fragments, trace) && AllRefused(refusals, trace)
    ensures !(r.Ok? && r.value.Some?) && Intact(r) && !rt.actor.silentLoss ==> rt.Loose() <= old(rt.Loose())
    ensures r == Ok(None) ==> rt.Sound() && |refusals| == |trace| == |fragments|
    ensures r.Ok? && r.value.Some? ==>
              && rt.Sound() && |refusals| < |fragments| && |trace| == |refusals| + 1
              && trace[|refusals|].answer == Passed(r.value.value)
              && Rests(rt, before) && Ready(rt.sessions, s) && trace[|refusals|].from == BaseState(rt.sessions, before, s)
              && Pending(rt.actor.rocq, rt.sessions, s, was[s].proof.value.current, fragments[|refusals|],
                         r.value.value, before, rt.actor.process)
    ensures AttemptTimedOut in refusals ==> deadline && old(rt.actor.epoch) < rt.actor.epoch
    ensures quiet ==> r.Ok? && r.value.Some? && refusals == [] && rt.sessions == old(rt.sessions) && before == old(rt.actor.process) && host.Waited(3)
  {
    refusals, trace, before := [], [], rt.actor.process;
    for i := 0 to |fragments|
      invariant |refusals| == |trace| == i
      invariant quiet ==> i == 0 && rt.sessions == old(rt.sessions) && rt.actor.process == old(rt.actor.process) && host.Waited(0)
      invariant s in rt.sessions && rt.sessions[s].proof.Some?
      invariant rt.Sound() && OnlyInterrupted(old(host.request), host.request)
      invariant rt.Loose() <= old(rt.Loose()) && Onward(rt, host)
      invariant SameTrees(was, rt.sessions)
      invariant AttemptTimedOut in refusals ==> deadline && old(rt.actor.epoch) < rt.actor.epoch
      invariant AllEvaluated(rt.actor.rocq, was[s].proof.value, fragments, trace) && AllRefused(refusals, trace)
    {
      var answer;
      answer, trace, before := EvaluateNext(rt, host, s, fragments, i, deadline, was, trace, refusals, quiet);
      if answer.Err? { return Err(answer.error), refusals, trace, before; }
      match answer.value
      case Passed(step) => return Ok(Some(step)), refusals, trace, before;
      case Declined(refusal) => refusals := refusals + [refusal];
    }
    r := Ok(None);
  }

  /** Evaluate alternative `i` and write it down. */
  method EvaluateNext(rt: ProjectRuntime, host: Host, s: Session, fragments: seq<Text>, i: nat, deadline: bool, ghost was: map<Session, Book>,
                      ghost trace: seq<Evaluation>, ghost refusals: seq<Refusal>, ghost quiet: bool := false)
      returns (r: EngineResult<Answer>, ghost longer: seq<Evaluation>, ghost before: Option<Process>)
    requires rt.Sound() && s in rt.sessions && rt.sessions[s].proof.Some?
    requires AllWellFormed(was) && SameTrees(was, rt.sessions)
    requires i < |fragments| && |trace| == |refusals| == i
    requires AllEvaluated(rt.actor.rocq, was[s].proof.value, fragments, trace) && AllRefused(refusals, trace)
    requires quiet ==> host.Still(3) && Willing(rt.actor.rocq, rt.sessions, rt.actor.process, s, host.Disk(), fragments[i])
    modifies rt`sessions, rt.actor, host`since, host`request
    ensures Guarded(rt, host, r) && OnlyInterrupted(old(host.request), host.request) && SameTrees(was, rt.sessions)
    ensures !(r.Ok? && r.value.Passed?) && Intact(r) && !rt.actor.silentLoss ==> rt.Loose() <= old(rt.Loose())
    ensures s in rt.sessions && rt.sessions[s].proof.Some?
    ensures r.Ok? ==> rt.Sound() && |longer| == i + 1 && longer[i].answer == r.value
    ensures r.Err? ==> longer == trace
    ensures AllEvaluated(rt.actor.rocq, was[s].proof.value, fragments, longer) && AllRefused(refusals, longer)
    ensures r.Ok? && r.value.Declined? ==> AllRefused(refusals + [r.value.refusal], longer)
    ensures r.Ok? && r.value.Passed? ==>
              && Rests(rt, before) && Ready(rt.sessions, s) && longer[i].from == BaseState(rt.sessions, before, s)
              && Pending(rt.actor.rocq, rt.sessions, s, was[s].proof.value.current, fragments[i], r.value.step, before, rt.actor.process)
    ensures r == Ok(Declined(AttemptTimedOut)) ==> deadline && old(rt.actor.epoch) < rt.actor.epoch
    ensures quiet ==> r.Ok? && r.value.Passed? && rt.sessions == old(rt.sessions) && before == old(rt.actor.process) && host.Waited(3)
  {
    ghost var e;
    r, e, before := Evaluate(rt, host, s, fragments[i], deadline, was, quiet);
    longer := trace;
    if r.Ok? {
      OneMore(rt.actor.rocq, was[s].proof.value, fragments, trace, refusals, e);
      longer := trace + [e];
    }
  }

  // ---------------------------------------------------------------- try: look, and leave nothing behind

  datatype Tried = Reached(finished: bool) | NotReached(refusal: Refusal)

  ghost predicate Reports(tried: Tried, answer: Answer) {
    match answer
    case Passed(step) => tried == Reached(step.finished)
    case Declined(refusal) => tried == NotReached(refusal)
  }

  ghost predicate AllReported(output: seq<Tried>, trace: seq<Evaluation>) {
    |output| == |trace| && forall i :: 0 <= i < |trace| ==> Reports(output[i], trace[i].answer)
  }

  lemma OneMoreTried(rocq: Rocq, proof: ProofSession, fragments: seq<Text>, trace: seq<Evaluation>, output: seq<Tried>,
                     e: Evaluation, tried: Tried)
    requires AllEvaluated(rocq, proof, fragments, trace) && AllReported(output, trace) && Reports(tried, e.answer)
    requires |trace| < |fragments| && Evaluated(rocq, proof, proof.current, fragments[|trace|], e)
    ensures AllEvaluated(rocq, proof, fragments, trace + [e]) && AllReported(output + [tried], trace + [e])
  {
  }

  /** Give back the state of an accepted alternative nobody will own. */
  method Discard(rt: ProjectRuntime, host: Host, ghost s: Session, ghost base: Id, ghost fragment: Text, step: Step, ghost before: Option<Process>)
      returns (r: EngineResult<()>)
    requires rt.Sound() && Pending(rt.actor.rocq, rt.sessions, s, base, fragment, step, before, rt.actor.process)
    modifies rt.actor`process, rt.actor`epoch, host`since, host`request
    ensures rt.actor.Steady(host, {step.state})
    ensures r.Ok? ==> rt.Sound() && rt.Loose() == Orphans(rt.sessions, before)
    ensures r.Err? ==> InvalidatesEpoch(r.error) && (!r.error.RequestCancelled? ==> rt.actor.process == None)
    ensures r.Err? && r.error.RequestCancelled? ==> host.request.IsCancelled()
  {
    if host.request.IsCancelled() { return Err(RequestCancelled); }
    assert Elements([step.state]) == {step.state};
    ghost var st := Table(rt.actor.process)[step.state];
    r := ReleaseStaged(rt.actor, host, [step.state], before, map[step.state := st]);
    if r.Ok? {
      SameKeepsCoherence(rt.actor.rocq, rt.sessions, before, rt.actor.process);
    }
  }

  method TryOne(rt: ProjectRuntime, host: Host, s: Session, fragment: Text, deadline: bool, ghost was: map<Session, Book>)
      returns (r: EngineResult<Tried>, ghost e: Evaluation)
    requires rt.Sound() && s in rt.sessions && rt.sessions[s].proof.Some?
    requires AllWellFormed(was) && SameTrees(was, rt.sessions)
    modifies rt`sessions, rt.actor, host`since, host`request
    ensures Kept(rt, host, r) && OnlyInterrupted(old(host.request), host.request) && SameTrees(was, rt.sessions)
    ensures s in rt.sessions && rt.sessions[s].proof.Some?
    ensures r.Ok? ==> rt.Sound() && Reports(r.value, e.answer)
                      && Evaluated(rt.actor.rocq, was[s].proof.value, was[s].proof.value.current, fragment, e)
    ensures r == Ok(NotReached(AttemptTimedOut)) ==> deadline && old(rt.actor.epoch) < rt.actor.epoch
  {
    hide Evaluated, Coherent, Describes;
    var answer; ghost var before;
    answer, e, before := Evaluate(rt, host, s, fragment, deadline, was);
    if answer.Err? { return Err(answer.error), e; }
    match answer.value
    case Declined(refusal) => r := Ok(NotReached(refusal));
    case Passed(step) =>
      var discarded := Discard(rt, host, s, was[s].proof.value.current, fragment, step, before);
      if discarded.Err? { return Err(discarded.error), e; }
      r := Ok(Reached(step.finished));
  }

  /**
   * Evaluate every alternative from the selected checkpoint and keep none: the tree, the selection
   * and the set of exported states nobody owns are what they were, and nothing is ever committed.
   */
  method TryFragments(rt: ProjectRuntime, host: Host, s: Session, fragments: seq<Text>, deadline: bool)
      returns (r: EngineResult<seq<Tried>>, ghost trace: seq<Evaluation>)
    requires rt.Sound() && s in rt.sessions
    modifies rt, rt.actor, host`since, host`request, host`log
    ensures Kept(rt, host, r) && Untouched(rt, host) && OnlyInterrupted(old(host.request), host.request)
    ensures !AttemptsAdmitted(fragments) ==> r == Err(InvalidRequest)
    ensures r.Ok? ==> old(rt.sessions)[s].proof.Some? && |trace| == |fragments| && AllReported(r.value, trace)
                      && AllEvaluated(rt.actor.rocq, old(rt.sessions)[s].proof.value, fragments, trace)
    ensures r.Ok? && NotReached(AttemptTimedOut) in r.value ==> deadline && old(rt.actor.epoch) < rt.actor.epoch
  {
    trace := [];
    var base := AdmitAttempts(rt, host, s, fragments);
    if base.Err? { return Err(base.error), trace; }
    r, trace := TryAll(rt, host, s, fragments, deadline, old(rt.sessions));
  }

  method TryAll(rt: ProjectRuntime, host: Host, s: Session, fragments: seq<Text>, deadline: bool, ghost was: map<Session, Book>)
      returns (r: EngineResult<seq<Tried>>, ghost trace: seq<Evaluation>)
    requires rt.Sound() && s in rt.sessions && rt.sessions[s].proof.Some?
    requires AllWellFormed(was) && SameTrees(was, rt.sessions)
    modifies rt`sessions, rt.actor, host`since, host`request
    ensures Kept(rt, host, r) && OnlyInterrupted(old(host.request), host.request) && SameTrees(was, rt.sessions)
    ensures AllEvaluated(rt.actor.rocq, was[s].proof.value, fragments, trace)
    ensures r.Ok? ==> |trace| == |fragments| && AllReported(r.value, trace)
    ensures r.Ok? && NotReached(AttemptTimedOut) in r.value ==> deadline && old(rt.actor.epoch) < rt.actor.epoch
  {
    trace := [];
    var output: seq<Tried> := [];
    for i := 0 to |fragments|
      invariant |trace| == i
      invariant s in rt.sessions && rt.sessions[s].proof.Some?
      invariant rt.Sound() && OnlyInterrupted(old(host.request), host.request) && SameTrees(was, rt.sessions)
      invariant rt.Loose() <= old(rt.Loose()) && Onward(rt, host)
      invariant AllEvaluated(rt.actor.rocq, was[s].proof.value, fragments, trace)
      invariant AllReported(output, trace)
      invariant NotReached(AttemptTimedOut) in output ==> deadline && old(rt.actor.epoch) < rt.actor.epoch
    {
      ghost var e;
      var tried;
      tried, e := TryOne(rt, host, s, fragments[i], deadline, was);
      if tried.Err? { return Err(tried.error), trace; }
      OneMoreTried(rt.actor.rocq, was[s].proof.value, fragments, trace, output, e, tried.value);
      trace, output := trace + [e], output + [tried.value];
    }
    r := Ok(output);
  }
}
