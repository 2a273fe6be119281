/** Stateless sequencing of prover calls for one declaration. */
module Engine {
  import opened Outcomes
  import opened Sources
  import opened Requests
  import opened Checkpoints
  import opened Declarations
  import opened Prover
  import opened Coherence
  import opened Hosts
  import opened Pet

  type EngineResult<T> = Result<T, ErrorKind>

  const MAX_FRAGMENT_BYTES := 1024 * 1024
  const MAX_ATTEMPTS := 20

  datatype Step = Step(state: Handle, finished: bool, view: View)

  datatype Opened = Opened(target: Target, root: Step)

  datatype OpenResult = Open(begun: Opened) | Published(target: Target)

  datatype TracedStep = StepAccepted(step: Step) | StepRejected

  predicate Space(b: byte) {
    b == 32 || 9 <= b <= 13
  }

  predicate FragmentAdmitted(fragment: Text) {
    |fragment| <= MAX_FRAGMENT_BYTES && exists i :: 0 <= i < |fragment| && !Space(fragment[i])
  }

  predicate AttemptsAdmitted(fragments: seq<Text>) {
    1 <= |fragments| <= MAX_ATTEMPTS && forall i :: 0 <= i < |fragments| ==> FragmentAdmitted(fragments[i])
  }

  function Terminator(kind: Kind): Text {
    if kind.Definition? then [68, 101, 102, 105, 110, 101, 100, 46] else [81, 101, 100, 46]
  }

  /** An engine error says truly whether the epoch is over: no process, or every exported identifier in place. */
  twostate predicate Accounted<T>(actor: PetActor, host: Host, new r: EngineResult<T>)
    reads actor, host
  {
    && actor.Steady(host)
    && (r.Err? && !InvalidatesEpoch(r.error) && !actor.silentLoss ==> Same(old(actor.process), actor.process))
    && (r.Err? && InvalidatesEpoch(r.error) ==> actor.process == None)
    && (r.Err? && r.error.RequestCancelled? ==> host.request.IsCancelled())
  }

  /** The call exported exactly one new state, `s`, under the returned identifier. */
  twostate predicate Exported(actor: PetActor, h: Handle, s: RocqState)
    reads actor
  {
    && Grown(old(actor.process), actor.process, map[h := s])
    && actor.silentLoss == old(actor.silentLoss) && actor.epoch == old(actor.epoch)
  }

  ghost predicate Describes(rocq: Rocq, step: Step, s: RocqState) {
    rocq.Safe(s) && step.finished == rocq.finished(s) && step.view == rocq.view(s)
  }

  /** At `t` the target's file is selected, can be read and holds the bytes the proof was begun on. */
  predicate Holds(script: nat -> Event, t: nat, disk: map<File, Stored>, target: Target) {
    script(t).selected && Seen(script(t), disk, target.file, target.source)
  }

  /** The source must still be the one the proof was begun on. */
  method ValidateTarget(host: Host, target: Target) returns (r: EngineResult<()>)
    modifies host`since, host`request
    ensures OnlyInterrupted(old(host.request), host.request)
    ensures host.Later()
    ensures host.Clock() == old(host.Clock()) + 1
    ensures host.Disk() == Edited(old(host.Disk()), host.script(old(host.Clock())).edit)
    ensures r.Ok? <==> Holds(host.script, old(host.Clock()), old(host.Disk()), target)
    ensures r.Err? ==> r.error == DeclarationChanged
    ensures host.request == Deliver(old(host.request), host.script(old(host.Clock())).signal)
    ensures Peaceful(host.script(old(host.Clock()))) && Contents(old(host.Disk()), target.file) == Some(target.source) ==>
              r.Ok? && host.Waited(1)
  {
    var e := host.Observe();
    if !e.selected || !e.readable || Contents(host.Disk(), target.file) != Some(target.source) {
      return Err(DeclarationChanged);
    }
    r := Ok(());
  }

  /** Run one fragment from `state`, keeping the result only when it is still an open proof. */
  method Run(actor: PetActor, host: Host, target: Target, state: Handle, fragment: Text, ghost quiet: bool := false) returns (r: EngineResult<Step>)
    requires actor.Valid() && !actor.silentLoss
    requires quiet ==> host.Still(3) && Contents(host.Disk(), target.file) == Some(target.source) && FragmentAdmitted(fragment)
                       && state in Table(actor.process) && SafeStep(actor.rocq, Table(actor.process)[state], fragment)
    modifies actor`process, actor`epoch, actor`silentLoss, host`since, host`request
    ensures Accounted(actor, host, r)
    ensures !Holds(host.script, old(host.Clock()), old(host.Disk()), target) ==> r == Err(DeclarationChanged)
    ensures r.Ok? ==> FragmentAdmitted(fragment) && state in Table(old(actor.process))
    ensures r.Ok? ==> var verdict := actor.rocq.step(Table(old(actor.process))[state], fragment);
                      verdict.Accepted? && Exported(actor, r.value.state, verdict.state)
                      && Describes(actor.rocq, r.value, verdict.state)
    ensures quiet ==> r.Ok? && host.Waited(3)
  {
    var valid := ValidateTarget(host, target);
    if valid.Err? { return Err(valid.error); }
    if !FragmentAdmitted(fragment) { return Err(InvalidRequest); }
    r := RunLive(actor, host, state, fragment, quiet);
  }

  method RunLive(actor: PetActor, host: Host, state: Handle, fragment: Text, ghost quiet: bool := false) returns (r: EngineResult<Step>)
    requires actor.Valid() && !actor.silentLoss
    requires quiet ==> host.Still(2) && state in Table(actor.process) && SafeStep(actor.rocq, Table(actor.process)[state], fragment)
    modifies actor`process, actor`epoch, actor`silentLoss, host`since, host`request
    ensures Accounted(actor, host, r)
    ensures r.Ok? ==> state in Table(old(actor.process))
    ensures r.Ok? ==> var verdict := actor.rocq.step(Table(old(actor.process))[state], fragment);
                      verdict.Accepted? && Exported(actor, r.value.state, verdict.state)
                      && Describes(actor.rocq, r.value, verdict.state)
    ensures quiet ==> r.Ok? && host.Waited(2)
  {
    ghost var before := Table(actor.process);
    var run := actor.Run(host, state, fragment, false, quiet);
    if run.Err? { return Err(Project(run.error, ProofStep)); }
    assert Table(actor.process) - {run.value} == before;
    r := KeepSafe(actor, host, run.value, ProofStepFailed, ProofStep);
  }

  /** Keep a state just exported if it is safe to hold; otherwise release it and report `refusal`. */
  method KeepSafe(actor: PetActor, host: Host, state: Handle, refusal: ErrorKind, operation: Operation)
      returns (r: EngineResult<Step>)
    requires actor.Valid() && state in Table(actor.process) && !InvalidatesEpoch(refusal)
    modifies actor`process, actor`epoch, host`since, host`request
    ensures actor.Steady(host, {state})
    ensures r.Ok? ==> actor.process == old(actor.process) && actor.epoch == old(actor.epoch) && r.value.state == state
                      && Describes(actor.rocq, r.value, Table(actor.process)[state])
    ensures r.Err? && !InvalidatesEpoch(r.error) ==>
              actor.process == Some(old(actor.process).value.(exported := old(actor.process).value.exported - {state}))
    ensures r.Err? && InvalidatesEpoch(r.error) ==> actor.process == None
    ensures r.Err? && r.error.RequestCancelled? ==> host.request.IsCancelled()
    ensures r != Err(ProofStepTimeout)
    ensures actor.rocq.Safe(Table(old(actor.process))[state]) ==> r.Ok? && host.Waited(0)
  {
    var s := actor.process.value.exported[state];
    if !actor.rocq.Safe(s) {
      assert Elements([state]) == {state};
      var released := actor.Release(host, [state]);
      if released.Err? { return Err(Project(released.error, operation)); }
      return Err(refusal);
    }
    r := Ok(Step(state, actor.rocq.finished(s), actor.rocq.view(s)));
  }

  /**
   * Run one fragment with sentence diagnostics. A rejection is an answer, not an error, and the
   * temporary state it exported is released before it is returned.
   */
  method RunTraced(actor: PetActor, host: Host, target: Target, state: Handle, fragment: Text, deadline: bool, ghost quiet: bool := false)
      returns (r: EngineResult<TracedStep>)
    requires actor.Valid() && !actor.silentLoss
    requires quiet ==> host.Still(3) && Contents(host.Disk(), target.file) == Some(target.source) && FragmentAdmitted(fragment)
                       && state in Table(actor.process) && SafeStep(actor.rocq, Table(actor.process)[state], fragment)
    modifies actor`process, actor`epoch, actor`silentLoss, host`since, host`request
    ensures Accounted(actor, host, r)
    ensures !Holds(host.script, old(host.Clock()), old(host.Disk()), target) ==> r == Err(DeclarationChanged)
    ensures r.Ok? ==> FragmentAdmitted(fragment) && state in Table(old(actor.process))
    ensures r.Ok? && r.value.StepAccepted? ==>
              var verdict := actor.rocq.step(Table(old(actor.process))[state], fragment);
              verdict.Accepted? && Exported(actor, r.value.step.state, verdict.state)
              && Describes(actor.rocq, r.value.step, verdict.state)
    ensures r.Ok? && r.value.StepRejected? ==>
              && actor.rocq.step(Table(old(actor.process))[state], fragment).Rejected?
              && Same(old(actor.process), actor.process) && actor.silentLoss == old(actor.silentLoss)
    ensures r == Err(ProofStepTimeout) ==> deadline && old(actor.epoch) < actor.epoch
    ensures quiet ==> r.Ok? && r.value.StepAccepted? && host.Waited(3)
  {
    var valid := ValidateTarget(host, target);
    if valid.Err? { return Err(valid.error); }
    if !FragmentAdmitted(fragment) { return Err(InvalidRequest); }
    r := TraceLive(actor, host, state, fragment, deadline, quiet);
  }

  method TraceLive(actor: PetActor, host: Host, state: Handle, fragment: Text, deadline: bool, ghost quiet: bool := false) returns (r: EngineResult<TracedStep>)
    requires actor.Valid() && !actor.silentLoss
    requires quiet ==> host.Still(2) && state in Table(actor.process) && SafeStep(actor.rocq, Table(actor.process)[state], fragment)
    modifies actor`process, actor`epoch, actor`silentLoss, host`since, host`request
    ensures Accounted(actor, host, r)
    ensures r.Ok? ==> state in Table(old(actor.process))
    ensures r.Ok? && r.value.StepAccepted? ==>
              var verdict := actor.rocq.step(Table(old(actor.process))[state], fragment);
              verdict.Accepted? && Exported(actor, r.value.step.state, verdict.state)
              && Describes(actor.rocq, r.value.step, verdict.state)
    ensures r.Ok? && r.value.StepRejected? ==>
              && actor.rocq.step(Table(old(actor.process))[state], fragment).Rejected?
              && Same(old(actor.process), actor.process) && actor.silentLoss == old(actor.silentLoss)
    ensures r == Err(ProofStepTimeout) ==> deadline && old(actor.epoch) < actor.epoch
    ensures quiet ==> r.Ok? && r.value.StepAccepted? && host.Waited(2)
  {
    ghost var before := Table(actor.process);
    var run := actor.RunTraced(host, state, fragment, deadline, quiet);
    if run.Err? { return Err(Project(run.error, ProofStep)); }
    assert Table(actor.process) - {TracedState(run.value)} == before;
    r := KeepTraced(actor, host, run.value);
  }

  /** The fragment is accepted and leaves a state a checkpoint may hold. */
  predicate SafeStep(rocq: Rocq, from: RocqState, fragment: Text) {
    rocq.step(from, fragment).Accepted? && rocq.Safe(rocq.step(from, fragment).state)
  }

  /** Keep an accepted state that is safe to hold; release the temporary state of a rejection. */
  method KeepTraced(actor: PetActor, host: Host, traced: Traced) returns (r: EngineResult<TracedStep>)
    requires actor.Valid() && TracedState(traced) in Table(actor.process)
    modifies actor`process, actor`epoch, host`since, host`request
    ensures actor.Steady(host, {TracedState(traced)})
    ensures r.Ok? ==> r.value.StepAccepted? == traced.Success? && actor.epoch == old(actor.epoch)
    ensures r.Ok? && r.value.StepAccepted? ==>
              && actor.process == old(actor.process) && r.value.step.state == traced.state
              && Describes(actor.rocq, r.value.step, Table(actor.process)[traced.state])
    ensures r == Ok(StepRejected) || (r.Err? && !InvalidatesEpoch(r.error)) ==>
              actor.process == Some(old(actor.process).value.(exported := old(actor.process).value.exported - {TracedState(traced)}))
    ensures r.Err? && InvalidatesEpoch(r.error) ==> actor.process == None
    ensures r.Err? && r.error.RequestCancelled? ==> host.request.IsCancelled()
    ensures r != Err(ProofStepTimeout)
    ensures traced.Success? && actor.rocq.Safe(Table(old(actor.process))[traced.state]) ==> r.Ok? && host.Waited(0)
  {
    match traced
    case Success(h) =>
      var kept := KeepSafe(actor, host, h, ProofStepFailed, ProofStep);
      if kept.Err? { return Err(kept.error); }
      r := Ok(StepAccepted(kept.value));
    case Failure(h) =>
      assert Elements([h]) == {h};
      var released := actor.Release(host, [h]);
      if released.Err? { return Err(Project(released.error, ProofStep)); }
      r := Ok(StepRejected);
  }

  function TracedState(traced: Traced): Handle {
    match traced
    case Success(h) => h
    case Failure(h) => h
  }

  /** Ask for the goals of a held state. */
  method Goals(actor: PetActor, host: Host, target: Target, state: Handle, ghost quiet: bool := false) returns (r: EngineResult<()>)
    requires actor.Valid() && !actor.silentLoss
    requires quiet ==> host.Still(2) && Contents(host.Disk(), target.file) == Some(target.source)
                       && state in Table(actor.process) && actor.rocq.proofMode(Table(actor.process)[state])
    modifies actor`process, actor`epoch, host`since, host`request
    ensures Accounted(actor, host, r)
    ensures !Holds(host.script, old(host.Clock()), old(host.Disk()), target) ==> r == Err(DeclarationChanged)
    ensures r.Ok? ==> actor.process == old(actor.process) && state in Table(actor.process)
                      && actor.rocq.proofMode(Table(actor.process)[state])
    ensures quiet ==> r.Ok? && host.Waited(2)
  {
    var valid := ValidateTarget(host, target);
    if valid.Err? { return Err(valid.error); }
    var call := actor.CallLive(host, false, true);
    if call.Err? { return Err(Project(call.error, ProofStep)); }
    if state !in actor.process.value.exported || !actor.rocq.proofMode(actor.process.value.exported[state]) {
      return Err(NotFound);
    }
    r := Ok(());
  }

  /** What the server keeps of one record. */
  datatype Located = Located(
    kind: Option<Kind>, axiom: bool, statement: Text, header: Range, declaration: Range, soleOwner: bool, finished: bool)

  function LocatedAt(rows: seq<Row>, i: nat): Located
    requires i < |rows|
  {
    Located(rows[i].kind, rows[i].axiom, rows[i].statement, rows[i].header, rows[i].declaration, SoleOwner(rows, i), rows[i].finished)
  }

  /** The record of a name in a report, if it has one. */
  function Locate(rows: seq<Row>, name: seq<string>): Option<Located> {
    match Find(rows, name)
    case None => None
    case Some(i) => Some(LocatedAt(rows, i))
  }

  /** There is no process, nothing will happen for `n` events, and the prover that starts will find a sensible document. */
  ghost predicate Awakes(actor: PetActor, host: Host, file: File, n: nat)
    reads actor, host
  {
    && actor.process.None? && host.Still(n) && file in host.Disk()
    && Sensible(actor.rocq.rows(host.script(host.Clock() + 1).env, host.Disk()[file].text), host.Disk()[file].text)
  }

  /** And the name is not declared in it yet. */
  ghost predicate Vacant(actor: PetActor, host: Host, file: File, name: seq<string>, n: nat)
    reads actor, host
  {
    && Awakes(actor, host, file, n)
    && var env, text := host.script(host.Clock() + 1).env, host.Disk()[file].text;
       Locate(actor.rocq.rows(env, text), name).None? && actor.rocq.insertion(env, text, name) <= |text|
  }

  /** And its header runs to a state that is safe to hold. */
  ghost predicate Declarable(actor: PetActor, host: Host, file: File, name: seq<string>, header: Text)
    reads actor, host
  {
    && Vacant(actor, host, file, name, 10)
    && var env, text := host.script(host.Clock() + 1).env, host.Disk()[file].text;
       SafeStep(actor.rocq, actor.rocq.at(env, file, text, actor.rocq.insertion(env, text, name)), header + PERIOD)
  }

  /**
   * Look one name up in the document the prover has checked, with the bytes it was read from. Every
   * record is validated against those bytes, and replaceability is worked out from all of them.
   */
  method LookUp(actor: PetActor, host: Host, file: File, name: seq<string>, ghost quiet: bool := false, ghost asleep: bool := false)
      returns (r: EngineResult<(Option<Located>, Text)>)
    requires actor.Valid() && !actor.silentLoss
    requires asleep ==> Awakes(actor, host, file, 4)
    requires quiet ==> host.Still(2) && file in host.Disk() && actor.process.Some? && actor.process.value.ready
                       && Sensible(actor.rocq.rows(actor.process.value.env, host.Disk()[file].text), host.Disk()[file].text)
    modifies actor`process, actor`epoch, host`since, host`request
    ensures Accounted(actor, host, r)
    ensures r.Ok? ==> actor.process.Some? && actor.process.value.ready && Same(old(actor.process), actor.process)
                      && actor.epoch == old(actor.epoch) && Contents(host.Disk(), file) == Some(r.value.1)
    ensures r.Ok? ==> var rows := actor.rocq.rows(actor.process.value.env, r.value.1);
                      AllPlaced(rows, r.value.1) && Unambiguous(rows) && r.value.0 == Locate(rows, name)
    ensures r != Err(UnfinishedDependency)
    ensures asleep ==>
              r.Ok? && actor.process == Started(host.script(old(host.Clock()) + 1)) && host.Waited(4)
    ensures quiet ==> r.Ok? && actor.process == old(actor.process) && host.Waited(2)
  {
    var e := host.Observe();
    if !e.selected || file !in host.Disk() { return Err(NotFound); }
    var call := actor.CallInWorkspace(host);
    if call.Err? { return Err(Project(call.error, Declaration)); }
    if file !in host.Disk() { return Err(DeclarationChanged); }
    var bytes := host.Disk()[file].text;
    var rows := actor.rocq.rows(actor.process.value.env, bytes);
    var found := Digest(rows, bytes, name);
    if found.Err? { return Err(found.error); }
    r := Ok((found.value, bytes));
  }

  predicate Sensible(rows: seq<Row>, bytes: Text) {
    AllPlaced(rows, bytes) && Unambiguous(rows)
  }

  method Digest(rows: seq<Row>, bytes: Text, name: seq<string>) returns (r: EngineResult<Option<Located>>)
    ensures r.Ok? <==> Sensible(rows, bytes)
    ensures r.Ok? ==> r.value == Locate(rows, name)
    ensures r.Err? ==> !InvalidatesEpoch(r.error) && !r.error.UnfinishedDependency?
  {
    var checked := CheckRows(rows, bytes);
    if checked.Err? { return Err(checked.error); }
    var flags := Replaceable(rows);
    r := match Find(rows, name)
         case None => Ok(None)
         case Some(i) =>
           Ok(Some(Located(rows[i].kind, rows[i].axiom, rows[i].statement, rows[i].header, rows[i].declaration, flags[i], rows[i].finished)));
  }

  /** The same, for a declaration that must be there. */
  method Resolve(actor: PetActor, host: Host, file: File, name: seq<string>, ghost quiet: bool := false) returns (r: EngineResult<(Located, Text)>)
    requires actor.Valid() && !actor.silentLoss
    requires quiet ==> host.Still(2) && file in host.Disk() && actor.process.Some? && actor.process.value.ready
                       && Sensible(actor.rocq.rows(actor.process.value.env, host.Disk()[file].text), host.Disk()[file].text)
                       && Find(actor.rocq.rows(actor.process.value.env, host.Disk()[file].text), name).Some?
    modifies actor`process, actor`epoch, host`since, host`request
    ensures Accounted(actor, host, r)
    ensures r.Ok? ==> actor.process.Some? && actor.process.value.ready && Same(old(actor.process), actor.process)
                      && actor.epoch == old(actor.epoch) && Contents(host.Disk(), file) == Some(r.value.1)
    ensures r.Ok? ==> var rows := actor.rocq.rows(actor.process.value.env, r.value.1);
                      AllPlaced(rows, r.value.1) && Locate(rows, name) == Some(r.value.0)
    ensures quiet ==> r.Ok? && actor.process == old(actor.process) && host.Waited(2)
  {
    var found := LookUp(actor, host, file, name, quiet);
    if found.Err? { return Err(found.error); }
    if found.value.0.None? { return Err(NotFound); }
    r := Ok((found.value.0.value, found.value.1));
  }

  /** The root of an existing declaration whose file still holds the target's bytes. */
  method OpenTarget(actor: PetActor, host: Host, target: Target, offset: nat, ghost quiet: bool := false) returns (r: EngineResult<Step>)
    requires actor.Valid() && !actor.silentLoss && Contents(host.Disk(), target.file) == Some(target.source)
    requires actor.process.Some? &&
             var env := actor.process.value.env;
             actor.rocq.Root(env, target) == Some(actor.rocq.at(env, target.file, target.source, offset))
    requires quiet ==> actor.IsUp() && host.Still(2)
                       && actor.rocq.Safe(actor.rocq.at(actor.process.value.env, target.file, target.source, offset))
    modifies actor`process, actor`epoch, actor`silentLoss, host`since, host`request
    ensures Accounted(actor, host, r)
    ensures r.Ok? ==> OpensRoot(actor, Opened(target, r.value))
    ensures quiet ==> r.Ok? && host.Waited(2)
  {
    var at := actor.StateAt(host, target.file, offset);
    if at.Err? { return Err(Project(at.error, Declaration)); }
    r := KeepSafe(actor, host, at.value, InvalidDeclaration, Declaration);
  }

  /** The target is exactly what the prover reports under its name for the bytes it carries. */
  predicate FoundIn(rocq: Rocq, env: Option<Environment>, t: Target, finished: bool) {
    env.Some? &&
    var found := Locate(rocq.rows(env.value, t.source), t.name);
    && found.Some? && found.value.kind == Some(t.kind) && found.value.statement == t.statement
    && found.value.header == t.header && found.value.declaration == t.declaration
    && found.value.soleOwner == t.soleOwner && found.value.finished == finished
  }

  /** A target read off the prover's report for this name. */
  ghost predicate FoundTarget(actor: PetActor, t: Target, file: File, name: seq<string>, finished: bool)
    reads actor
  {
    t.file == file && t.name == name && t.newHeader == None && FoundIn(actor.rocq, Loaded(actor.process), t, finished)
  }

  /**
   * Select a declaration: open its proof, or report that its source form is already complete. In a world
   * that keeps still a complete one is reported, and an unfinished one that owns its range is opened.
   */
  method OpenDeclaration(actor: PetActor, host: Host, file: File, name: seq<string>, ghost quiet: bool := false, ghost ripe: bool := false)
      returns (r: EngineResult<OpenResult>)
    requires actor.Valid() && !actor.silentLoss
    requires quiet ==> host.Still(2) && SeesComplete(actor, host.Disk(), file, name)
    requires ripe ==> host.Still(4) && SeesOpen(actor, host.Disk(), file, name)
    modifies actor`process, actor`epoch, actor`silentLoss, host`since, host`request
    ensures Accounted(actor, host, r)
    ensures r.Ok? && r.value.Published? ==>
              && Same(old(actor.process), actor.process) && actor.silentLoss == old(actor.silentLoss) && actor.epoch == old(actor.epoch)
              && FoundTarget(actor, r.value.target, file, name, true)
              && Contents(host.Disk(), file) == Some(r.value.target.source)
    ensures r.Ok? && r.value.Open? ==> OpensRoot(actor, r.value.begun) && FoundTarget(actor, r.value.begun.target, file, name, false)
                                       && Publishable(actor.rocq, r.value.begun.target)
    ensures quiet ==> r.Ok? && r.value.Published? && r.value.target.source == old(host.Disk())[file].text
                      && actor.process == old(actor.process) && host.Waited(2)
    ensures ripe ==> r.Ok? && r.value.Open? && host.Waited(4) && r.value.begun.target.source == old(host.Disk())[file].text
  {
    hide Sensible, AllPlaced, SoleOwner, Find, LocatedAt, Publishable, Drift;
    var found := FindTarget(actor, host, file, name, quiet || ripe);
    if found.Err? { return Err(found.error); }
    var target := found.value.0;
    if found.value.1 { return Ok(Published(target)); }
    var root := OpenFound(actor, host, target, ripe);
    r := match root
         case Ok(step) => Ok(Open(Opened(target, step)))
         case Err(k) => Err(k);
  }

  /** Open an unfinished declaration that owns its range. */
  method OpenFound(actor: PetActor, host: Host, target: Target, ghost ripe: bool) returns (r: EngineResult<Step>)
    requires actor.Valid() && !actor.silentLoss && Contents(host.Disk(), target.file) == Some(target.source)
    requires FoundTarget(actor, target, target.file, target.name, false)
    requires AllPlaced(actor.rocq.rows(actor.process.value.env, target.source), target.source)
    requires ripe ==> actor.IsUp() && host.Still(2) && target.soleOwner
                      && actor.rocq.Safe(actor.rocq.at(actor.process.value.env, target.file, target.source, target.header.end))
    modifies actor`process, actor`epoch, actor`silentLoss, host`since, host`request
    ensures Accounted(actor, host, r)
    ensures r.Ok? ==> OpensRoot(actor, Opened(target, r.value)) && FoundTarget(actor, target, target.file, target.name, false)
                      && Publishable(actor.rocq, target)
    ensures ripe ==> r.Ok? && host.Waited(2)
  {
    if !target.soleOwner { return Err(InvalidDeclaration); }
    assert RowOf(actor.rocq, actor.process.value.env, target, Find(actor.rocq.rows(actor.process.value.env, target.source), target.name).value);
    r := OpenTarget(actor, host, target, target.header.end, ripe);
  }

  /** The target a name stands for, and whether it is complete already. */
  method FindTarget(actor: PetActor, host: Host, file: File, name: seq<string>, ghost quiet: bool := false) returns (r: EngineResult<(Target, bool)>)
    requires actor.Valid() && !actor.silentLoss
    requires quiet ==> host.Still(2) && Sees(actor, host.Disk(), file, name)
    modifies actor`process, actor`epoch, host`since, host`request
    ensures Accounted(actor, host, r)
    ensures r.Ok? ==> Same(old(actor.process), actor.process) && actor.epoch == old(actor.epoch)
                      && FoundTarget(actor, r.value.0, file, name, r.value.1) && Contents(host.Disk(), file) == Some(r.value.0.source)
                      && AllPlaced(actor.rocq.rows(actor.process.value.env, r.value.0.source), r.value.0.source)
    ensures quiet ==> r.Ok? && actor.process == old(actor.process) && host.Waited(2)
  {
    var found := Resolve(actor, host, file, name, quiet);
    if found.Err? { return Err(found.error); }
    var l, bytes := found.value.0, found.value.1;
    if l.kind.None? { return Err(InvalidDeclaration); }
    r := Ok((Target(name, l.kind.value, l.statement, file, bytes, l.header, l.declaration, l.soleOwner, None), l.finished));
  }

  /** The call exported one state, and it is the root of the begun target in the current environment. */
  twostate predicate OpensRoot(actor: PetActor, begun: Opened)
    reads actor
  {
    actor.process.Some? && begun.root.state in actor.process.value.exported &&
    var s := actor.process.value.exported[begun.root.state];
    && Exported(actor, begun.root.state, s)
    && Describes(actor.rocq, begun.root, s)
    && actor.rocq.Root(actor.process.value.env, begun.target) == Some(s)
  }

  /** Run a fragment from a temporary base; a failed release takes precedence over either outcome. */
  method RunAndRelease(actor: PetActor, host: Host, base: Handle, fragment: Text) returns (r: EngineResult<Handle>)
    requires actor.Valid() && !actor.silentLoss && base in Table(actor.process)
    modifies actor`process, actor`epoch, actor`silentLoss, host`since, host`request
    ensures actor.Steady(host, {base})
    ensures r.Ok? ==> var verdict := actor.rocq.step(Table(old(actor.process))[base], fragment);
                      && verdict.Accepted? && actor.process.Some? && !actor.silentLoss
                      && actor.process.value.env == old(actor.process).value.env
                      && r.value !in Table(old(actor.process))
                      && Table(actor.process) == (Table(old(actor.process)) - {base})[r.value := verdict.state]
    ensures r.Ok? ==> r.value == old(actor.process).value.nextId && actor.process.value.nextId == r.value + 1 && actor.process.value.ready
                      && actor.epoch == old(actor.epoch)
    ensures host.Quietly(3) && actor.rocq.step(Table(old(actor.process))[base], fragment).Accepted? ==> r.Ok? && host.Waited(3)
    ensures r.Err? && !InvalidatesEpoch(r.error) && !actor.silentLoss ==>
              && actor.process.Some? && actor.process.value.env == old(actor.process).value.env
              && Table(actor.process) == Table(old(actor.process)) - {base}
    ensures r.Err? && InvalidatesEpoch(r.error) ==> actor.process == None
    ensures r.Err? && r.error.RequestCancelled? ==> host.request.IsCancelled()
  {
    ghost var quiet := host.Still(3) && actor.rocq.step(Table(actor.process)[base], fragment).Accepted?;
    var run := actor.Run(host, base, fragment, false, quiet);
    assert Elements([base]) == {base};
    var released := actor.Release(host, [base]);
    if released.Err? { return Err(Project(released.error, Declaration)); }
    if run.Err? { return Err(Project(run.error, Declaration)); }
    r := Ok(run.value);
  }

  /** Run a new header at its insertion point, in a file that still holds the target's bytes. */
  method RunHeader(actor: PetActor, host: Host, target: Target, ghost quiet: bool := false) returns (r: EngineResult<Step>)
    requires actor.Valid() && !actor.silentLoss && target.newHeader.Some? && Contents(host.Disk(), target.file) == Some(target.source)
    requires quiet ==> actor.IsUp() && host.Still(5) && HeaderRuns(actor.rocq, actor.process.value.env, target)
    modifies actor`process, actor`epoch, actor`silentLoss, host`since, host`request
    ensures Accounted(actor, host, r)
    ensures r.Ok? ==> OpensRoot(actor, Opened(target, r.value))
    ensures r.Ok? && old(actor.IsUp()) ==>
              r.value.state == old(actor.process).value.nextId + 1 && actor.process.value.nextId == r.value.state + 1 && actor.IsUp()
    ensures quiet ==> r.Ok? && host.Waited(5)
  {
    ghost var before := Table(actor.process);
    var base := actor.StateAt(host, target.file, target.header.start);
    if base.Err? { return Err(Project(base.error, Declaration)); }
    assert Table(actor.process) - {base.value} == before;
    r := RunFromBase(actor, host, base.value, target.newHeader.value + PERIOD);
  }

  /** The header of a new declaration is accepted where it is to go, and leads to a state that may be kept. */
  predicate HeaderRuns(rocq: Rocq, env: Environment, target: Target) {
    target.newHeader.Some? &&
    SafeStep(rocq, rocq.at(env, target.file, target.source, target.header.start), target.newHeader.value + PERIOD)
  }

  /** Run a fragment from a temporary base and keep what it leads to if that is safe to hold. */
  method RunFromBase(actor: PetActor, host: Host, base: Handle, fragment: Text) returns (r: EngineResult<Step>)
    requires actor.Valid() && !actor.silentLoss && base in Table(actor.process)
    modifies actor`process, actor`epoch, actor`silentLoss, host`since, host`request
    ensures actor.Steady(host, {base})
    ensures r.Ok? ==> var verdict := actor.rocq.step(Table(old(actor.process))[base], fragment);
                      && verdict.Accepted? && actor.process.Some? && !actor.silentLoss && Describes(actor.rocq, r.value, verdict.state)
                      && actor.process.value.env == old(actor.process).value.env
                      && r.value.state !in Table(old(actor.process))
                      && Table(actor.process) == (Table(old(actor.process)) - {base})[r.value.state := verdict.state]
    ensures r.Ok? ==> r.value.state == old(actor.process).value.nextId && actor.process.value.nextId == r.value.state + 1
                      && actor.process.value.ready && actor.epoch == old(actor.epoch)
    ensures host.Quietly(3) && SafeStep(actor.rocq, Table(old(actor.process))[base], fragment) ==> r.Ok? && host.Waited(3)
    ensures r.Err? && !InvalidatesEpoch(r.error) && !actor.silentLoss ==>
              && actor.process.Some? && actor.process.value.env == old(actor.process).value.env
              && Table(actor.process) == Table(old(actor.process)) - {base}
    ensures r.Err? && InvalidatesEpoch(r.error) ==> actor.process == None
    ensures r.Err? && r.error.RequestCancelled? ==> host.request.IsCancelled()
  {
    ghost var before := Table(actor.process) - {base};
    var run := RunAndRelease(actor, host, base, fragment);
    if run.Err? { return Err(run.error); }
    assert Table(actor.process) - {run.value} == before;
    r := KeepSafe(actor, host, run.value, InvalidDeclaration, Declaration);
  }

  /** Where a new declaration goes, with the bytes that position was computed for. */
  method InsertionPoint(actor: PetActor, host: Host, file: File, name: seq<string>, ghost quiet: bool := false) returns (r: EngineResult<(nat, Text)>)
    requires actor.Valid() && !actor.silentLoss
    requires quiet ==> Vacant(actor, host, file, name, 5)
    modifies actor`process, actor`epoch, host`since, host`request
    ensures Accounted(actor, host, r)
    ensures r.Ok? ==> actor.process.Some? && Same(old(actor.process), actor.process) && actor.epoch == old(actor.epoch)
                      && r.value.0 == actor.rocq.insertion(actor.process.value.env, r.value.1, name) <= |r.value.1|
                      && Contents(host.Disk(), file) == Some(r.value.1)
    ensures quiet ==>
              r.Ok? && actor.process == Started(host.script(old(host.Clock()) + 1)) && host.Waited(5)
  {
    var present := LookUp(actor, host, file, name, false, quiet);
    if present.Err? { return Err(present.error); }
    if present.value.0.Some? { return Err(InvalidDeclaration); }
    var call := actor.CallInWorkspace(host);
    if call.Err? { return Err(Project(call.error, Declaration)); }
    if file !in host.Disk() { return Err(DeclarationChanged); }
    var bytes := host.Disk()[file].text;
    var insertion := actor.rocq.insertion(actor.process.value.env, bytes, name);
    r := if insertion > |bytes| then Err(InvalidConfiguration) else Ok((insertion, bytes));
  }

  /** A declaration that exists only as a header, at an empty range of its file. */
  predicate NewTarget(t: Target, file: File, name: seq<string>, kind: Kind, header: Text) {
    && t.file == file && t.name == name && t.kind == kind && t.statement == header && t.newHeader == Some(header)
    && t.soleOwner && t.declaration == t.header && t.header.start == t.header.end <= |t.source|
  }

  /** Validate a new declaration header; disk is untouched until publication. */
  method Declare(actor: PetActor, host: Host, file: File, name: seq<string>, kind: Kind, header: Text, ghost quiet: bool := false)
      returns (r: EngineResult<Opened>)
    requires actor.Valid() && !actor.silentLoss
    requires quiet ==> Declarable(actor, host, file, name, header)
    modifies actor`process, actor`epoch, actor`silentLoss, host`since, host`request
    ensures Accounted(actor, host, r)
    ensures r.Ok? ==> OpensRoot(actor, r.value) && NewTarget(r.value.target, file, name, kind, header)
                      && Publishable(actor.rocq, r.value.target)
    ensures r.Ok? ==> r.value.target.header.start == actor.rocq.insertion(actor.process.value.env, r.value.target.source, name)
    ensures quiet ==>
              && r.Ok? && host.Waited(10) && r.value.target.source == old(host.Disk())[file].text
              && r.value.root.state == host.script(old(host.Clock()) + 1).firstId + 1
              && actor.process.value.env == host.script(old(host.Clock()) + 1).env
              && actor.process.value.ready && actor.process.value.nextId == r.value.root.state + 1
              && actor.process.value.exported.Keys == {r.value.root.state}
  {
    var place := InsertionPoint(actor, host, file, name, quiet);
    if place.Err? { return Err(place.error); }
    var here := Range(place.value.0, place.value.0);
    var target := Target(name, kind, header, file, place.value.1, here, here, true, Some(header));
    var root := RunHeader(actor, host, target, quiet);
    if root.Err? { return Err(root.error); }
    r := Ok(Opened(target, root.value));
  }

  /** The declaration is still the one the proof was begun on, or its new header runs, and its root may be held. */
  predicate RootReady(rocq: Rocq, env: Environment, target: Target) {
    if target.newHeader.Some? then HeaderRuns(rocq, env, target)
    else
      Sensible(rocq.rows(env, target.source), target.source) &&
      var found := Locate(rocq.rows(env, target.source), target.name);
      && found.Some? && found.value.kind == Some(target.kind) && found.value.statement == target.statement
      && rocq.Safe(rocq.at(env, target.file, target.source, found.value.header.end))
  }

  /** Recreate only the root of a proof, in whatever environment the prover now has. */
  method ReplayRoot(actor: PetActor, host: Host, target: Target, ghost quiet: bool := false) returns (r: EngineResult<Step>)
    requires actor.Valid() && !actor.silentLoss
    requires quiet ==> actor.IsUp() && host.Still(6) && Contents(host.Disk(), target.file) == Some(target.source)
                       && RootReady(actor.rocq, actor.process.value.env, target)
    modifies actor`process, actor`epoch, actor`silentLoss, host`since, host`request
    ensures Accounted(actor, host, r)
    ensures !Holds(host.script, old(host.Clock()), old(host.Disk()), target) ==> r == Err(DeclarationChanged)
    ensures r.Ok? ==> OpensRoot(actor, Opened(target, r.value))
    ensures quiet ==> r.Ok? && host.Lingered(6)
  {
    var valid := ValidateTarget(host, target);
    if valid.Err? { return Err(valid.error); }
    if target.newHeader.Some? {
      r := RunHeader(actor, host, target, quiet);
      return;
    }
    r := ReopenTarget(actor, host, target, quiet);
  }

  /** Find the declaration again; it must be the one the proof was begun on, in the same source. */
  method ReopenTarget(actor: PetActor, host: Host, target: Target, ghost quiet: bool := false) returns (r: EngineResult<Step>)
    requires actor.Valid() && !actor.silentLoss && target.newHeader.None?
    requires quiet ==> actor.IsUp() && host.Still(4) && Contents(host.Disk(), target.file) == Some(target.source)
                       && RootReady(actor.rocq, actor.process.value.env, target)
    modifies actor`process, actor`epoch, actor`silentLoss, host`since, host`request
    ensures Accounted(actor, host, r)
    ensures r.Ok? ==> OpensRoot(actor, Opened(target, r.value))
    ensures quiet ==> r.Ok? && host.Waited(4)
  {
    hide AllPlaced, SoleOwner, Drift, Unambiguous;
    var found := Resolve(actor, host, target.file, target.name, quiet);
    if found.Err? { return Err(if found.error == NotFound then DeclarationChanged else found.error); }
    var l, bytes := found.value.0, found.value.1;
    if l.kind != Some(target.kind) || l.statement != target.statement || bytes != target.source {
      return Err(DeclarationChanged);
    }
    r := OpenTarget(actor, host, target, l.header.end, quiet);
  }

  /** Try the generated terminator on a finished state; nothing it exports survives. */
  method CloseProof(actor: PetActor, host: Host, target: Target, state: Handle, ghost quiet: bool := false) returns (r: EngineResult<()>)
    requires actor.Valid() && !actor.silentLoss
    requires quiet ==> host.Still(4) && Contents(host.Disk(), target.file) == Some(target.source)
                       && state in Table(actor.process) && Closes(actor.rocq, Table(actor.process)[state], Terminator(target.kind))
    modifies actor`process, actor`epoch, actor`silentLoss, host`since, host`request
    ensures Accounted(actor, host, r)
    ensures !Holds(host.script, old(host.Clock()), old(host.Disk()), target) ==> r == Err(DeclarationChanged)
    ensures r.Ok? ==> Same(old(actor.process), actor.process) && actor.silentLoss == old(actor.silentLoss)
    ensures r.Ok? ==> state in Table(old(actor.process)) && Closes(actor.rocq, Table(old(actor.process))[state], Terminator(target.kind))
    ensures quiet ==> r.Ok? && host.Waited(4)
  {
    var valid := ValidateTarget(host, target);
    if valid.Err? { return Err(valid.error); }
    r := CloseLive(actor, host, state, Terminator(target.kind), quiet);
  }

  method CloseLive(actor: PetActor, host: Host, state: Handle, terminator: Text, ghost quiet: bool := false) returns (r: EngineResult<()>)
    requires actor.Valid() && !actor.silentLoss
    requires quiet ==> host.Still(3) && state in Table(actor.process) && Closes(actor.rocq, Table(actor.process)[state], terminator)
    modifies actor`process, actor`epoch, actor`silentLoss, host`since, host`request
    ensures Accounted(actor, host, r)
    ensures r.Ok? ==> Same(old(actor.process), actor.process) && actor.silentLoss == old(actor.silentLoss)
    ensures r.Ok? ==> state in Table(old(actor.process)) && Closes(actor.rocq, Table(old(actor.process))[state], terminator)
    ensures quiet ==> r.Ok? && host.Waited(3)
  {
    ghost var before := Table(actor.process);
    var closed := actor.Run(host, state, terminator, false, quiet);
    if closed.Err? { return Err(Project(closed.error, ProofStep)); }
    assert Table(actor.process) - {closed.value} == before;
    r := DropClosed(actor, host, closed.value);
  }

  /** The terminator is accepted and ends the proof. */
  predicate Closes(rocq: Rocq, s: RocqState, terminator: Text) {
    rocq.step(s, terminator).Accepted? && Ended(rocq, rocq.step(s, terminator).state)
  }

  /** The proof is closed and complete. */
  predicate Ended(rocq: Rocq, s: RocqState) {
    !rocq.proofMode(s) && rocq.finished(s)
  }

  /** Look at a state just exported, then release it whatever it is. */
  method DropClosed(actor: PetActor, host: Host, h: Handle) returns (r: EngineResult<()>)
    requires actor.Valid() && h in Table(actor.process)
    modifies actor`process, actor`epoch, host`since, host`request
    ensures actor.Steady(host, {h})
    ensures r.Ok? || !InvalidatesEpoch(r.error) ==>
              && actor.process == Some(old(actor.process).value.(exported := old(actor.process).value.exported - {h}))
              && (r.Ok? <==> Ended(actor.rocq, Table(old(actor.process))[h]))
    ensures Peaceful(host.script(old(host.Clock()))) && !old(host.request).IsCancelled() && Ended(actor.rocq, Table(old(actor.process))[h]) ==>
              r.Ok? && host.Waited(1)
    ensures r.Err? && InvalidatesEpoch(r.error) ==> actor.process == None
    ensures r.Err? && r.error.RequestCancelled? ==> host.request.IsCancelled()
  {
    var s := actor.process.value.exported[h];
    var ended := Ended(actor.rocq, s);
    assert Elements([h]) == {h};
    var released := actor.Release(host, [h]);
    if released.Err? { return Err(Project(released.error, ProofStep)); }
    r := if ended then Ok(()) else Err(ProofStepFailed);
  }

  method QueryState(actor: PetActor, host: Host, target: Target, state: Handle, command: Text) returns (r: EngineResult<()>)
    requires actor.Valid() && !actor.silentLoss
    modifies actor`process, actor`epoch, actor`silentLoss, host`since, host`request
    ensures Accounted(actor, host, r)
    ensures !Holds(host.script, old(host.Clock()), old(host.Disk()), target) ==> r == Err(DeclarationChanged)
    ensures r.Ok? ==> Same(old(actor.process), actor.process) && actor.silentLoss == old(actor.silentLoss)
    ensures r.Ok? ==> state in Table(old(actor.process)) && actor.rocq.step(Table(old(actor.process))[state], command).Accepted?
  {
    var valid := ValidateTarget(host, target);
    if valid.Err? { return Err(valid.error); }
    var asked := actor.Ask(host, state, command);
    if asked.Err? { return Err(Project(asked.error, Query)); }
    r := Ok(());
  }

  /** Ask in a temporary state and release it; a failed release takes precedence. */
  method AskAndRelease(actor: PetActor, host: Host, state: Handle, command: Text) returns (r: EngineResult<()>)
    requires actor.Valid() && !actor.silentLoss && state in Table(actor.process)
    modifies actor`process, actor`epoch, actor`silentLoss, host`since, host`request
    ensures actor.Steady(host, {state}) && !actor.silentLoss
    ensures (r.Ok? || !InvalidatesEpoch(r.error)) ==> actor.process.Some?
    ensures (r.Ok? || !InvalidatesEpoch(r.error)) ==>
              && actor.process.value.env == old(actor.process).value.env
              && Table(actor.process) == Table(old(actor.process)) - {state}
    ensures r.Ok? ==> actor.rocq.step(Table(old(actor.process))[state], command).Accepted?
    ensures r.Err? && InvalidatesEpoch(r.error) ==> actor.process == None
    ensures r.Err? && r.error.RequestCancelled? ==> host.request.IsCancelled()
  {
    var asked := actor.Ask(host, state, command);
    assert Elements([state]) == {state};
    var released := actor.Release(host, [state]);
    if released.Err? { return Err(Project(released.error, Query)); }
    if asked.Err? { return Err(Project(asked.error, Query)); }
    r := Ok(());
  }

  /** Query just after one declaration, in a temporary state that is released before returning. */
  method QueryAt(actor: PetActor, host: Host, file: File, name: seq<string>, command: Text, ghost ambushed: bool := false)
      returns (r: EngineResult<()>, ghost asked: RocqState, ghost at: Moment)
    requires actor.Valid() && !actor.silentLoss
    requires ambushed ==> Ambush(host.script, host.Clock(), 3, host.request) && SeesComplete(actor, host.Disk(), file, name)
    modifies actor`process, actor`epoch, actor`silentLoss, host`since, host`request
    ensures Accounted(actor, host, r)
    ensures r.Ok? ==> Same(old(actor.process), actor.process) && actor.silentLoss == old(actor.silentLoss)
    ensures r.Ok? ==> actor.process.Some? && host.Reached(at)
                      && JustAfter(actor.rocq, actor.process.value.env, at.disk, file, name, asked)
                      && actor.rocq.step(asked, command).Accepted?
    ensures ambushed ==> actor.silentLoss && Swallowed(actor, r)
  {
    asked, at := RocqState(0), host.Now();
    var place := PlaceAfter(actor, host, file, name, ambushed);
    if place.Err? { return Err(place.error), asked, at; }
    host.Arrived();
    at := host.Now();
    ghost var here := actor.process;
    r, asked := AskBehind(actor, host, file, place.value, command, ambushed);
    assert r.Ok? ==> Same(here, actor.process) && JustAfter(actor.rocq, here.value.env, at.disk, file, name, asked);
  }

  /** Where the named declaration of the file ends. */
  method PlaceAfter(actor: PetActor, host: Host, file: File, name: seq<string>, ghost quiet: bool := false) returns (r: EngineResult<nat>)
    requires actor.Valid() && !actor.silentLoss
    requires quiet ==> host.Still(2) && SeesComplete(actor, host.Disk(), file, name)
    modifies actor`process, actor`epoch, host`since, host`request
    ensures Accounted(actor, host, r)
    ensures r.Ok? ==> actor.IsUp() && Same(old(actor.process), actor.process) && actor.epoch == old(actor.epoch) && file in host.Disk()
    ensures r.Ok? ==> var found := Locate(actor.rocq.rows(actor.process.value.env, host.Disk()[file].text), name);
                      found.Some? && r.value == found.value.declaration.end
    ensures quiet ==> r.Ok? && actor.process == old(actor.process) && host.Waited(2)
  {
    var found := Resolve(actor, host, file, name, quiet);
    if found.Err? { return Err(found.error); }
    r := if found.value.0.kind.None? then Err(InvalidDeclaration) else Ok(found.value.0.declaration.end);
  }

  /** The prover is up and reports a proof declaration of this name for the bytes on disk. */
  ghost predicate Sees(actor: PetActor, disk: map<File, Stored>, file: File, name: seq<string>)
    reads actor
  {
    && file in disk && actor.IsUp()
    && Sensible(actor.rocq.rows(actor.process.value.env, disk[file].text), disk[file].text)
    && var found := Locate(actor.rocq.rows(actor.process.value.env, disk[file].text), name);
       found.Some? && found.value.kind.Some?
  }

  /** One that is complete. */
  ghost predicate SeesComplete(actor: PetActor, disk: map<File, Stored>, file: File, name: seq<string>)
    reads actor
  {
    Sees(actor, disk, file, name) && Locate(actor.rocq.rows(actor.process.value.env, disk[file].text), name).value.finished
  }

  /** One that is unfinished, owns its range and leaves a state that is safe to hold. */
  ghost predicate SeesOpen(actor: PetActor, disk: map<File, Stored>, file: File, name: seq<string>)
    reads actor
  {
    Sees(actor, disk, file, name) &&
    var found := Locate(actor.rocq.rows(actor.process.value.env, disk[file].text), name).value;
    !found.finished && found.soleOwner && actor.rocq.Safe(actor.rocq.at(actor.process.value.env, file, disk[file].text, found.header.end))
  }

  /** The process is gone, and the error does not say so. */
  ghost predicate Swallowed(actor: PetActor, r: EngineResult<()>)
    reads actor
  {
    actor.process == None && r.Err? && !InvalidatesEpoch(r.error)
  }

  /** Ask in a temporary state at one position of a file. */
  method AskBehind(actor: PetActor, host: Host, file: File, offset: nat, command: Text, ghost ambushed: bool := false)
      returns (r: EngineResult<()>, ghost asked: RocqState)
    requires actor.Valid() && !actor.silentLoss && file in host.Disk()
    requires ambushed ==> actor.IsUp() && Ambush(host.script, host.Clock(), 1, host.request)
    modifies actor`process, actor`epoch, actor`silentLoss, host`since, host`request
    ensures Accounted(actor, host, r)
    ensures r.Ok? ==> Same(old(actor.process), actor.process) && actor.silentLoss == old(actor.silentLoss) && actor.process.Some?
    ensures r.Ok? ==> asked == actor.rocq.at(actor.process.value.env, file, old(host.Disk())[file].text, offset)
                      && actor.rocq.step(asked, command).Accepted?
    ensures ambushed ==> actor.silentLoss && Swallowed(actor, r)
  {
    asked := RocqState(0);
    ghost var before := Table(actor.process);
    var context := actor.StateAt(host, file, offset);
    if context.Err? { return Err(Project(context.error, Query)), asked; }
    assert Table(actor.process) - {context.value} == before;
    asked := Table(actor.process)[context.value];
    r := AskAndRelease(actor, host, context.value, command);
  }

  /** `s` is the state right after the named declaration of the file, as that reads on this disk. */
  predicate JustAfter(rocq: Rocq, env: Environment, disk: map<File, Stored>, file: File, name: seq<string>, s: RocqState) {
    file in disk &&
    var found := Locate(rocq.rows(env, disk[file].text), name);
    found.Some? && s == rocq.at(env, file, disk[file].text, found.value.declaration.end)
  }
}
