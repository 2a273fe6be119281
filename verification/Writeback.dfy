/** Compare-and-swap publication of one declaration, with an external writer between any two steps. */
module Writeback {
  import opened Outcomes
  import opened Sources
  import opened Requests
  import opened Checkpoints
  import opened Prover
  import opened Coherence
  import opened Hosts
  import opened Pet
  import opened Engine
  import opened Splicing

  datatype Prepared = Prepared(file: File, original: Text, replacement: Text)

  /** How one compare-and-write ended. */
  datatype Swap = Swapped | Foreign | Unreadable | FailedBefore | FailedAfter
  {
    predicate Landed() { Swapped? || FailedAfter? }
  }

  /** How a publication ended: what its first write did, and what its rollback, if any, did. */
  datatype Outcome = Outcome(first: Swap, rollback: Option<Swap>)

  /** Check the source and render the whole new file; nothing is touched. */
  method Prepare(host: Host, target: Target, fragments: seq<Text>) returns (r: EngineResult<Prepared>)
    modifies host`since, host`request
    ensures OnlyInterrupted(old(host.request), host.request) && host.Later()
    ensures target.soleOwner ==> host.Clock() == old(host.Clock()) + 1 && host.Disk() == Edited(old(host.Disk()), host.script(old(host.Clock())).edit)
                                 && host.request == Deliver(old(host.request), host.script(old(host.Clock())).signal)
    ensures r.Ok? ==> target.soleOwner
                      && r.value.file == target.file && r.value.original == target.source
                      && Replacement(target.source, target, fragments) == Ok(r.value.replacement)
    ensures r.Ok? <==> target.soleOwner && Seen(host.script(old(host.Clock())), old(host.Disk()), target.file, target.source)
                       && Replacement(target.source, target, fragments).Ok?
    ensures r.Err? ==> !InvalidatesEpoch(r.error)
    ensures r.Err? && target.soleOwner ==>
              r.error == if !Seen(host.script(old(host.Clock())), old(host.Disk()), target.file, target.source) then DeclarationChanged
                         else Replacement(target.source, target, fragments).error
  {
    if !target.soleOwner { return Err(InvalidDeclaration); }
    var e := host.Observe();
    if !e.readable || Contents(host.Disk(), target.file) != Some(target.source) { return Err(DeclarationChanged); }
    var rendered := Render(target.source, target, fragments);
    if rendered.Err? { return Err(rendered.error); }
    r := Ok(Prepared(target.file, target.source, rendered.value));
  }

  // ---------------------------------------------------------------- one compare-and-write

  /** The verdict of one compare-and-write, given what the world did just before it. */
  function Swapping(e: Event, disk: map<File, Stored>, file: File, expected: Text): Swap {
    var now := Edited(disk, e.edit);
    if !e.readable || file !in now then Unreadable
    else if now[file].text != expected then Foreign
    else match e.write
      case NotWritten => FailedBefore
      case Persisted => Swapped
      case PersistedUnsynced => FailedAfter
  }

  function SwapEffects(w: Swap, file: File, expected: Text, next: Text): seq<Effect> {
    if w.Landed() then [Wrote(file, expected, next)]
    else if w.FailedBefore? then [WriteFailed(file)]
    else []
  }

  /** The disk after it. */
  function SwapDisk(e: Event, disk: map<File, Stored>, file: File, expected: Text, next: Text): map<File, Stored> {
    var now := Edited(disk, e.edit);
    if Swapping(e, disk, file, expected).Landed() then now[file := Stored(next, true)] else now
  }

  /** Read, compare and atomically replace: the program's check and the write that follows it. */
  method ReplaceIf(host: Host, file: File, expected: Text, next: Text) returns (w: Swap)
    modifies host
    ensures OnlyInterrupted(old(host.request), host.request) && host.Clock() == old(host.Clock()) + 1
    ensures host.request == Deliver(old(host.request), host.script(old(host.Clock())).signal)
    ensures host.era == if w.Landed() then Era(host.Clock(), host.Disk()) else old(host.era)
    ensures w == Swapping(host.script(old(host.Clock())), old(host.Disk()), file, expected)
    ensures host.Disk() == SwapDisk(host.script(old(host.Clock())), old(host.Disk()), file, expected, next)
    ensures host.log == old(host.log) + SwapEffects(w, file, expected, next)
  {
    var e := host.Observe();
    if !e.readable || file !in host.Disk() { return Unreadable; }
    var current := host.Disk()[file].text;
    if current != expected { return Foreign; }
    if e.write.NotWritten? {
      host.Record(WriteFailed(file));
      return FailedBefore;
    }
    host.Write(file, next);
    host.Record(Wrote(file, current, next));
    w := if e.write.Persisted? then Swapped else FailedAfter;
  }

  /** `after` continues `before` without writing to any file. */
  ghost predicate Calm(before: seq<Effect>, after: seq<Effect>) {
    && |before| <= |after| && after[..|before|] == before
    && forall i :: |before| <= i < |after| ==> !after[i].Wrote?
  }

  lemma CalmOn(a: seq<Effect>, b: seq<Effect>, c: seq<Effect>)
    requires Calm(a, b) && Calm(b, c)
    ensures Calm(a, c)
  {
  }

  /** Dune succeeds and nobody interrupts it. */
  predicate Builds(e: Event, request: RequestState) {
    !Deliver(request, e.signal).IsCancelled() && e.build.Succeeded?
  }

  method NativeBuild(host: Host) returns (r: EngineResult<()>)
    modifies host`since, host`request, host`log
    ensures OnlyInterrupted(old(host.request), host.request)
    ensures r.Ok? <==> Builds(host.script(old(host.Clock())), old(host.request))
    ensures r.Ok? ==> host.log == old(host.log) + [Built(Succeeded)]
    ensures Calm(old(host.log), host.log) && host.Later()
    ensures host.Clock() == old(host.Clock()) + 1 && host.Disk() == Edited(old(host.Disk()), host.script(old(host.Clock())).edit)
    ensures host.request == Deliver(old(host.request), host.script(old(host.Clock())).signal)
    ensures r.Err? ==> host.log == old(host.log) || exists b: Build :: !b.Succeeded? && host.log == old(host.log) + [Built(b)]
    ensures r.Err? && r.error.RequestCancelled? ==> host.request.IsCancelled()
    ensures r.Err? ==> !r.error.PetLost? && !r.error.ProofStepTimeout?
  {
    var e := host.Observe();
    if host.request.IsCancelled() { return Err(RequestCancelled); }
    host.Record(Built(e.build));
    r := match e.build
         case Succeeded => Ok(())
         case SourceRejected => Err(InvalidDeclaration)
         case RanOut => Err(BuildTimeout)
         case Unavailable => Err(InvalidConfiguration);
  }

  method RequireContents(host: Host, file: File, text: Text) returns (r: EngineResult<()>)
    modifies host`since, host`request, host`log
    ensures OnlyInterrupted(old(host.request), host.request) && host.Later()
    ensures r.Ok? <==> Seen(host.script(old(host.Clock())), old(host.Disk()), file, text)
    ensures host.Clock() == old(host.Clock()) + 1 && host.Disk() == Edited(old(host.Disk()), host.script(old(host.Clock())).edit)
    ensures host.request == Deliver(old(host.request), host.script(old(host.Clock())).signal)
    ensures r.Ok? ==> host.log == old(host.log) + [Confirmed(file, text)]
    ensures r.Err? ==> r.error == DeclarationChanged && host.log == old(host.log)
  {
    var e := host.Observe();
    if !e.readable || Contents(host.Disk(), file) != Some(text) { return Err(DeclarationChanged); }
    host.Record(Confirmed(file, text));
    r := Ok(());
  }

  // ---------------------------------------------------------------- refresh, resolve, audit

  /** Whatever it answers, nothing exported before survives a refresh. */
  method RefreshAndRecord(actor: PetActor, host: Host, ghost quiet: bool := false) returns (r: EngineResult<()>)
    requires actor.Valid()
    requires quiet ==> actor.IsUp() && host.Still(1)
    modifies actor`process, actor`epoch, host`since, host`request, host`log
    ensures actor.Steady(host) && Table(actor.process) == map[]
    ensures r.Ok? ==> actor.epoch > old(actor.epoch) && host.log == old(host.log) + [Refreshed(actor.epoch)]
    ensures r.Err? ==> host.log == old(host.log)
    ensures r.Err? && r.error.RequestCancelled? ==> host.request.IsCancelled()
    ensures quiet ==> r.Ok? && actor.process == Started(host.script(old(host.Clock()))) && host.Waited(1)
  {
    var refreshed := actor.Refresh(host);
    if refreshed.Err? { return Err(ReleaseError(refreshed.error)); }
    host.Record(Refreshed(actor.epoch));
    r := Ok(());
  }

  predicate StatesAxiom(rocq: Rocq, env: Environment, text: Text, path: seq<string>) {
    Locate(rocq.rows(env, text), path).Some? && Locate(rocq.rows(env, text), path).value.axiom
  }

  /** The home of the axiom has a record of its path, and not as an axiom: something there was left unfinished. */
  predicate UnfinishedOn(rocq: Rocq, env: Environment, disk: map<File, Stored>, a: Assumption) {
    a.axiom && a.home.Some? && a.home.value in disk &&
    var found := Locate(rocq.rows(env, disk[a.home.value].text), a.path);
    found.Some? && !found.value.axiom
  }

  /** The home of the assumption, as it reads on this disk, states it as an axiom. */
  predicate StatedOn(rocq: Rocq, env: Environment, disk: map<File, Stored>, a: Assumption) {
    a.axiom && a.home.Some? && a.home.value in disk && StatesAxiom(rocq, env, disk[a.home.value].text, a.path)
  }

  /** What a published proof may rest on: only axioms the project itself states as such, each at the moment it was looked up. */
  ghost predicate Clean(rocq: Rocq, env: Environment, report: Report, looks: seq<Moment>) {
    && !report.unsafeTheory && |looks| == |report.assumptions|
    && forall i :: 0 <= i < |looks| ==> StatedOn(rocq, env, looks[i].disk, report.assumptions[i])
  }

  /** Every assumption of the report would be found stated, if nothing moved. */
  ghost predicate Clears(rocq: Rocq, env: Environment, disk: map<File, Stored>, report: Report) {
    && !report.unsafeTheory
    && forall a :: a in report.assumptions ==>
         StatedOn(rocq, env, disk, a) && Sensible(rocq.rows(env, disk[a.home.value].text), disk[a.home.value].text)
  }

  /** What is audited: the report on the declaration in the state at the end of its file. */
  function ReportAt(rocq: Rocq, env: Environment, disk: map<File, Stored>, file: File, name: seq<string>): Report
    requires file in disk
  {
    rocq.assumptions(rocq.at(env, file, disk[file].text, |disk[file].text|), name)
  }

  /** The prover would find the declaration finished, of the kind expected, and resting on stated axioms only, if nothing moved. */
  ghost predicate Acceptable(rocq: Rocq, env: Environment, disk: map<File, Stored>, file: File, name: seq<string>, kind: Option<Kind>) {
    && file in disk && Sensible(rocq.rows(env, disk[file].text), disk[file].text)
    && var found := Locate(rocq.rows(env, disk[file].text), name);
       && found.Some? && found.value.finished && found.value.kind.Some? && (kind.Some? ==> found.value.kind == kind)
       && Clears(rocq, env, disk, ReportAt(rocq, env, disk, file, name))
  }

  /** How many events a validation then takes. */
  function Effort(rocq: Rocq, env: Environment, disk: map<File, Stored>, file: File, name: seq<string>): nat {
    if file in disk then 7 + 2 * |ReportAt(rocq, env, disk, file, name).assumptions| else 0
  }

  ghost predicate AllDuring(script: nat -> Event, era: Era, from: nat, to: nat, looks: seq<Moment>) {
    forall i :: 0 <= i < |looks| ==> During(script, era, from, to, looks[i])
  }

  /** Every one of them is a moment of this call. */
  twostate predicate AllReached(host: Host, new looks: seq<Moment>)
    reads host
  {
    AllDuring(host.script, old(host.era), old(host.Clock()), host.Clock(), looks)
  }

  /** Classify every assumption in turn; each in-project axiom is looked up in its own file. */
  method JudgeReport(actor: PetActor, host: Host, report: Report, ghost quiet: bool := false) returns (r: EngineResult<()>, ghost looks: seq<Moment>)
    requires actor.Valid() && !actor.silentLoss && actor.process.Some?
    requires quiet ==> actor.IsUp() && host.Still(2 * |report.assumptions|) && Clears(actor.rocq, actor.process.value.env, host.Disk(), report)
    modifies actor`process, actor`epoch, host`since, host`request
    ensures actor.Steady(host)
    ensures actor.process == None || (actor.process.Some? && Table(actor.process) == Table(old(actor.process)))
    ensures r.Ok? ==> actor.process.Some? && actor.process.value.env == old(actor.process).value.env && actor.epoch == old(actor.epoch)
                      && Clean(actor.rocq, actor.process.value.env, report, looks) && AllReached(host, looks)
    ensures r == Err(UnfinishedDependency) ==>
              exists a, m :: a in report.assumptions && host.Reached(m)
                             && UnfinishedOn(actor.rocq, old(actor.process).value.env, m.disk, a)
    ensures r.Err? && r.error.RequestCancelled? ==> host.request.IsCancelled()
    ensures quiet ==> r.Ok? && actor.process == old(actor.process) && host.Waited(2 * |report.assumptions|)
  {
    looks := [];
    ghost var env := actor.process.value.env;
    if report.unsafeTheory { return Err(AxiomDependencyOutOfScope), looks; }
    for i := 0 to |report.assumptions|
      invariant actor.Steady(host) && !actor.silentLoss
      invariant actor.process.Some? && Same(old(actor.process), actor.process) && actor.epoch == old(actor.epoch)
      invariant |looks| == i && AllReached(host, looks)
      invariant forall k :: 0 <= k < i ==> StatedOn(actor.rocq, env, looks[k].disk, report.assumptions[k])
      invariant quiet ==> actor.process == old(actor.process) && host.Waited(2 * i)
    {
      r := JudgeOne(actor, host, report.assumptions[i], quiet);
      host.Arrived();
      if r == Err(UnfinishedDependency) {
        ghost var a, m := report.assumptions[i], host.Now();
        assert a in report.assumptions && host.Reached(m) && UnfinishedOn(actor.rocq, env, m.disk, a);
      }
      if r.Err? { return; }
      looks := looks + [host.Now()];
    }
    r := Ok(());
  }

  /** One assumption must be an axiom that its home in the project, as it reads now, states as one. */
  method JudgeOne(actor: PetActor, host: Host, a: Assumption, ghost quiet: bool := false) returns (r: EngineResult<()>)
    requires actor.Valid() && !actor.silentLoss && actor.process.Some?
    requires quiet ==> actor.IsUp() && host.Still(2) && StatedOn(actor.rocq, actor.process.value.env, host.Disk(), a)
                       && Sensible(actor.rocq.rows(actor.process.value.env, host.Disk()[a.home.value].text), host.Disk()[a.home.value].text)
    modifies actor`process, actor`epoch, host`since, host`request
    ensures Accounted(actor, host, r)
    ensures r.Ok? ==> Same(old(actor.process), actor.process) && actor.process.Some? && actor.epoch == old(actor.epoch)
                      && StatedOn(actor.rocq, actor.process.value.env, host.Disk(), a)
    ensures r == Err(UnfinishedDependency) ==> UnfinishedOn(actor.rocq, old(actor.process).value.env, host.Disk(), a)
    ensures quiet ==> r.Ok? && actor.process == old(actor.process) && host.Waited(2)
  {
    if !a.axiom || a.home.None? { return Err(AxiomDependencyOutOfScope); }
    var found := LookUp(actor, host, a.home.value, a.path, quiet);
    if found.Err? { return Err(found.error); }
    if found.value.0.None? { return Err(AxiomDependencyOutOfScope); }
    r := if found.value.0.value.axiom then Ok(()) else Err(UnfinishedDependency);
  }

  /** The report is on this declaration, asked for in the state at the end of its file as that reads on this disk. */
  ghost predicate ReportedOn(rocq: Rocq, env: Environment, disk: map<File, Stored>, file: File, name: seq<string>, report: Report) {
    file in disk && report == ReportAt(rocq, env, disk, file, name)
  }

  /** The assumption report at the end of the file; the temporary state is released either way. */
  method Audit(actor: PetActor, host: Host, file: File, name: seq<string>, ghost quiet: bool := false)
      returns (r: EngineResult<()>, report: Report, ghost at: Moment, ghost looks: seq<Moment>)
    requires actor.Valid() && !actor.silentLoss && Table(actor.process) == map[]
    requires quiet ==> actor.IsUp() && file in host.Disk() && host.Still(Effort(actor.rocq, actor.process.value.env, host.Disk(), file, name) - 2)
                       && Clears(actor.rocq, actor.process.value.env, host.Disk(),
                                 ReportAt(actor.rocq, actor.process.value.env, host.Disk(), file, name))
    modifies actor`process, actor`epoch, actor`silentLoss, host`since, host`request, host`log
    ensures actor.Steady(host) && Table(actor.process) == map[]
    ensures r.Ok? ==> actor.process.Some? && (old(actor.process).Some? ==> actor.process.value.env == old(actor.process).value.env)
                      && Clean(actor.rocq, actor.process.value.env, report, looks)
                      && ReportedOn(actor.rocq, actor.process.value.env, at.disk, file, name, report)
    ensures r.Ok? ==> host.Reached(at) && AllDuring(host.script, old(host.era), at.clock, host.Clock(), looks)
    ensures r.Ok? ==> actor.epoch == old(actor.epoch) && host.log == old(host.log) + [Audited(actor.epoch, report)]
    ensures r.Err? ==> host.log == old(host.log)
    ensures r.Err? && r.error.RequestCancelled? ==> host.request.IsCancelled()
    ensures quiet ==> r.Ok? && host.Waited(Effort(actor.rocq, old(actor.process).value.env, old(host.Disk()), file, name) - 2)
  {
    report, at, looks := Report(true, []), host.Now(), [];
    var e := host.Observe();
    if !e.readable || file !in host.Disk() { return Err(DeclarationChanged), report, at, looks; }
    host.Arrived();
    at := host.Now();
    var context := actor.StateAt(host, file, |host.Disk()[file].text|);
    if context.Err? { return Err(Project(context.error, Query)), report, at, looks; }
    r, report, looks := AuditIn(actor, host, context.value, name, quiet);
    if r.Ok? {
      host.Record(Audited(actor.epoch, report));
    }
  }

  method AuditIn(actor: PetActor, host: Host, context: Handle, name: seq<string>, ghost quiet: bool := false)
      returns (r: EngineResult<()>, report: Report, ghost looks: seq<Moment>)
    requires actor.Valid() && !actor.silentLoss && Table(actor.process).Keys == {context}
    requires quiet ==> actor.IsUp() &&
                       var answer := actor.rocq.assumptions(Table(actor.process)[context], name);
                       host.Still(2 + 2 * |answer.assumptions|) && Clears(actor.rocq, actor.process.value.env, host.Disk(), answer)
    modifies actor`process, actor`epoch, host`since, host`request
    ensures actor.Steady(host, {context}) && Table(actor.process) == map[]
    ensures r.Ok? ==> actor.process.Some? && actor.process.value.env == old(actor.process).value.env && actor.epoch == old(actor.epoch)
                      && Clean(actor.rocq, actor.process.value.env, report, looks) && AllReached(host, looks)
                      && report == actor.rocq.assumptions(Table(old(actor.process))[context], name)
    ensures r.Err? && r.error.RequestCancelled? ==> host.request.IsCancelled()
    ensures quiet ==> r.Ok? && host.Waited(2 + 2 * |report.assumptions|)
  {
    report, looks := Report(true, []), [];
    var answer := actor.Assumptions(host, context, name);
    if answer.Ok? {
      report := answer.value;
      r, looks := JudgeReport(actor, host, report, quiet);
    } else {
      r := Err(Project(answer.error, Query));
    }
    assert Elements([context]) == {context};
    var released := actor.Release(host, [context]);
    if r.Ok? && released.Err? {
      r := Err(Project(released.error, Query));
    }
  }

  /** What a validation saw: one environment, the kind it found, when it looked at what, and the report. */
  datatype Vet = Vet(env: Environment, kind: Kind, seen: Moment, audited: Moment, looks: seq<Moment>, report: Report)

  /**
   * The prover reported the declaration finished, for the bytes its file then held, and the audit of that
   * very declaration clean, all in one environment.
   */
  ghost predicate Vetted(rocq: Rocq, file: File, name: seq<string>, v: Vet) {
    && file in v.seen.disk && FinishedIn(rocq, v.env, v.seen.disk[file].text, name, v.kind)
    && ReportedOn(rocq, v.env, v.audited.disk, file, name, v.report)
    && Clean(rocq, v.env, v.report, v.looks)
  }

  predicate FinishedIn(rocq: Rocq, env: Environment, text: Text, name: seq<string>, kind: Kind) {
    var found := Locate(rocq.rows(env, text), name);
    found.Some? && found.value.finished && found.value.kind == Some(kind)
  }

  /** All of it happened in this stretch of time, the look before the audit. */
  ghost predicate Spans(script: nat -> Event, era: Era, from: nat, to: nat, v: Vet) {
    && During(script, era, from, to, v.seen) && During(script, era, v.seen.clock, to, v.audited)
    && AllDuring(script, era, v.audited.clock, to, v.looks)
  }

  /** All of it happened in this call. */
  twostate predicate Spanned(host: Host, new v: Vet)
    reads host
  {
    Spans(host.script, old(host.era), old(host.Clock()), host.Clock(), v)
  }

  /** A vet that has seen nothing. */
  ghost function NoVet(host: Host): Vet
    reads host
  {
    Vet(0, Theorem, host.Now(), host.Now(), [], Report(true, []))
  }

  /** Re-resolve the declaration in the refreshed context, require it finished, and audit it. */
  method Validate(actor: PetActor, host: Host, file: File, name: seq<string>, kind: Option<Kind>, ghost quiet: bool := false)
      returns (r: EngineResult<()>, ghost v: Vet)
    requires actor.Valid() && !actor.silentLoss && Table(actor.process) == map[]
    requires quiet ==> actor.IsUp() && Acceptable(actor.rocq, actor.process.value.env, host.Disk(), file, name, kind)
                       && host.Still(Effort(actor.rocq, actor.process.value.env, host.Disk(), file, name))
    modifies actor`process, actor`epoch, actor`silentLoss, host`since, host`request, host`log
    ensures actor.Steady(host) && Table(actor.process) == map[]
    ensures r.Ok? ==> actor.epoch == old(actor.epoch) && actor.process.Some? && actor.process.value.env == v.env
                      && (kind.Some? ==> v.kind == kind.value)
                      && Vetted(actor.rocq, file, name, v) && Spanned(host, v)
                      && host.log == old(host.log) + [Resolved(true, v.kind, actor.epoch), Audited(actor.epoch, v.report)]
    ensures Calm(old(host.log), host.log)
    ensures r.Err? && r.error.RequestCancelled? ==> host.request.IsCancelled()
    ensures quiet ==> r.Ok? && host.Waited(Effort(actor.rocq, old(actor.process).value.env, old(host.Disk()), file, name))
  {
    v := NoVet(host);
    var found; ghost var seen;
    found, seen := ResolveFinished(actor, host, file, name, kind, quiet);
    if found.Err? { return Err(found.error), v; }
    var report; ghost var at, looks;
    r, report, at, looks := Audit(actor, host, file, name, quiet);
    v := Vet(if actor.process.Some? then actor.process.value.env else 0, found.value, seen, at, looks, report);
  }

  /** The first half: the declaration is there, finished, and of its kind. */
  method ResolveFinished(actor: PetActor, host: Host, file: File, name: seq<string>, kind: Option<Kind>, ghost quiet: bool := false)
      returns (r: EngineResult<Kind>, ghost seen: Moment)
    requires actor.Valid() && !actor.silentLoss && Table(actor.process) == map[]
    requires quiet ==> actor.IsUp() && host.Still(2) && Acceptable(actor.rocq, actor.process.value.env, host.Disk(), file, name, kind)
    modifies actor`process, actor`epoch, host`since, host`request, host`log
    ensures actor.Steady(host) && Table(actor.process) == map[]
    ensures r.Ok? ==> actor.epoch == old(actor.epoch) && actor.process.Some?
                      && file in seen.disk && FinishedIn(actor.rocq, actor.process.value.env, seen.disk[file].text, name, r.value)
                      && (kind.Some? ==> r.value == kind.value)
                      && host.Reached(seen) && host.log == old(host.log) + [Resolved(true, r.value, actor.epoch)]
    ensures Calm(old(host.log), host.log)
    ensures r.Err? && r.error.RequestCancelled? ==> host.request.IsCancelled()
    ensures quiet ==> r.Ok? && actor.process == old(actor.process) && host.Waited(2)
  {
    seen := host.Now();
    var found := Resolve(actor, host, file, name, quiet);
    if found.Err? { return Err(found.error), seen; }
    if !found.value.0.finished { return Err(InvalidDeclaration), seen; }
    if found.value.0.kind.None? { return Err(InvalidDeclaration), seen; }
    host.Arrived();
    seen := host.Now();
    host.Record(Resolved(true, found.value.0.kind.value, actor.epoch));
    if kind.Some? && kind.value != found.value.0.kind.value { return Err(DeclarationChanged), seen; }
    r := Ok(found.value.0.kind.value);
  }

  // ---------------------------------------------------------------- the transaction

  /** A write of ours was tried and did not go through cleanly: nothing is built or refreshed after it. */
  predicate Failed(w: Swap) {
    w.FailedBefore? || w.FailedAfter?
  }

  /** Put the original back only if our exact replacement still owns the file, then admit the winner. */
  method RestoreEpoch(actor: PetActor, host: Host, p: Prepared) returns (r: EngineResult<bool>, swap: Swap)
    requires actor.Valid()
    modifies actor`process, actor`epoch, host
    ensures actor.Steady(host) && old(host.Clock()) < host.Clock()
    ensures swap == Swapping(host.script(old(host.Clock())), old(host.Disk()), p.file, p.replacement)
    ensures Calm(old(host.log) + SwapEffects(swap, p.file, p.replacement, p.original), host.log)
    ensures r.Ok? ==> r.value == swap.Swapped?
    ensures r.Ok? <==> !Failed(swap) && exists epoch :: Admitted(old(host.log) + SwapEffects(swap, p.file, p.replacement, p.original), host.log, epoch)
    ensures r.Err? ==> r.error == InvalidConfiguration
    ensures Failed(swap) ==> r.Err? && actor.process == old(actor.process) && actor.epoch == old(actor.epoch)
    ensures !Failed(swap) ==> Table(actor.process) == map[]
    ensures host.Disk() == Drift(host.script, old(host.Clock()) + 1, host.Clock() - old(host.Clock()) - 1,
                                 SwapDisk(host.script(old(host.Clock())), old(host.Disk()), p.file, p.replacement, p.original))
  {
    swap := ReplaceIf(host, p.file, p.replacement, p.original);
    if Failed(swap) { return Err(InvalidConfiguration), swap; }
    var admitted := AdmitWinner(actor, host);
    r := if admitted then Ok(swap.Swapped?) else Err(InvalidConfiguration);
  }

  /** The record goes on with a build and a refresh that both went through. */
  predicate Admitted(before: seq<Effect>, after: seq<Effect>, epoch: nat) {
    after == before + [Built(Succeeded), Refreshed(epoch)]
  }

  /** Build and refresh whatever is in the file now. */
  method AdmitWinner(actor: PetActor, host: Host) returns (admitted: bool)
    requires actor.Valid()
    modifies actor`process, actor`epoch, host`since, host`request, host`log
    ensures actor.Steady(host) && Table(actor.process) == map[] && Calm(old(host.log), host.log)
    ensures admitted <==> exists epoch :: Admitted(old(host.log), host.log, epoch)
    ensures host.Disk() == Drift(host.script, old(host.Clock()), host.Clock() - old(host.Clock()), old(host.Disk()))
  {
    var build := NativeBuild(host);
    ghost var mid := host.log;
    var refresh := RefreshAndRecord(actor, host);
    host.Drifted();
    admitted := build.Ok? && refresh.Ok?;
    forall epoch ensures Admitted(old(host.log), host.log, epoch) ==> admitted {
      if Admitted(old(host.log), host.log, epoch) {
        assert host.log[|old(host.log)|] == Built(Succeeded) && host.log[|old(host.log)| + 1] == Refreshed(epoch);
      }
    }
    assert admitted ==> Admitted(old(host.log), host.log, actor.epoch);
  }

  /** What a completed publication has behind it, after its one write: all in one new epoch. */
  function Certificate(p: Prepared, kind: Kind, epoch: nat, report: Report): (r: seq<Effect>)
    ensures |r| == 7
  {
    [Built(Succeeded), Confirmed(p.file, p.replacement), Refreshed(epoch), Confirmed(p.file, p.replacement),
     Resolved(true, kind, epoch), Audited(epoch, report), Confirmed(p.file, p.replacement)]
  }

  /** What a completed certification saw after its refresh: the file as written, the validation, the file as written. */
  datatype Seal = Seal(second: Moment, vet: Vet, third: Moment)

  /** At this moment the file holds exactly the replacement. */
  predicate InPlace(script: nat -> Event, m: Moment, p: Prepared) {
    Seen(script(m.clock), m.disk, p.file, p.replacement)
  }

  /**
   * From `start` on the build went through, the replacement was there after it, after the refresh and at
   * the very end, and in between the declaration was found finished and of its kind, and audited.
   */
  ghost predicate Sealed(script: nat -> Event, rocq: Rocq, era: Era, start: Moment, to: nat, p: Prepared, name: seq<string>, kind: Kind, seal: Seal) {
    && Reaches(script, start.clock, start.request, start.disk, p)
    && During(script, era, start.clock + 2, to, seal.second) && InPlace(script, seal.second, p)
    && Lasts(script, rocq, era, seal.second.clock + 1, to, p, name, kind, seal.vet, seal.third)
  }

  /** The second half of it: the validation, and the replacement still there after it. */
  ghost predicate Lasts(script: nat -> Event, rocq: Rocq, era: Era, from: nat, to: nat, p: Prepared, name: seq<string>, kind: Kind, vet: Vet, third: Moment) {
    && Vetted(rocq, p.file, name, vet) && vet.kind == kind && Spans(script, era, from, to, vet)
    && During(script, era, vet.audited.clock, to, third) && InPlace(script, third, p)
    && forall i :: 0 <= i < |vet.looks| ==> vet.looks[i].clock <= third.clock
  }

  /** A longer stretch will do as well. */
  lemma LastsLonger(script: nat -> Event, rocq: Rocq, era: Era, from: nat, mid: nat, to: nat, p: Prepared, name: seq<string>, kind: Kind, vet: Vet, third: Moment)
    requires from <= mid && Lasts(script, rocq, era, mid, to, p, name, kind, vet, third)
    ensures Lasts(script, rocq, era, from, to, p, name, kind, vet, third)
  {
  }

  /** A certification that has seen nothing. */
  ghost function NoSeal(host: Host): Seal
    reads host
  {
    Seal(host.Now(), NoVet(host), host.Now())
  }

  /** From `t` on: the build goes through and the replacement is still there after it. */
  predicate Reaches(script: nat -> Event, t: nat, request: RequestState, disk: map<File, Stored>, p: Prepared) {
    && Builds(script(t), request)
    && Seen(script(t + 1), Edited(disk, script(t).edit), p.file, p.replacement)
  }

  /** Build, confirm, refresh and confirm again. Stopping before the refresh leaves the prover alone. */
  method Rebuild(actor: PetActor, host: Host, p: Prepared, ghost quiet: bool := false) returns (r: EngineResult<()>, ghost second: Moment)
    requires actor.Valid()
    requires quiet ==> actor.IsUp() && host.Still(4) && Contents(host.Disk(), p.file) == Some(p.replacement)
    modifies actor`process, actor`epoch, host`since, host`request, host`log
    ensures actor.Steady(host) && old(host.Clock()) < host.Clock()
    ensures Calm(old(host.log), host.log)
    ensures r.Ok? ==> actor.epoch > old(actor.epoch)
                      && host.log == old(host.log) + Certificate(p, Theorem, actor.epoch, Report(true, []))[..4]
                      && During(host.script, old(host.era), old(host.Clock()) + 2, host.Clock() - 1, second) && InPlace(host.script, second, p)
    ensures r.Err? && r.error.RequestCancelled? ==> host.request.IsCancelled()
    ensures !Reaches(host.script, old(host.Clock()), old(host.request), old(host.Disk()), p) ==>
              && r.Err? && actor.process == old(actor.process)
              && host.Clock() == Stopped(host.script, old(host.Clock()), old(host.request))
    ensures Reaches(host.script, old(host.Clock()), old(host.request), old(host.Disk()), p) ==> Table(actor.process) == map[]
    ensures quiet ==> r.Ok? && actor.process == Started(host.script(old(host.Clock()) + 2)) && host.Waited(4)
  {
    second := host.Now();
    r := BuildAndConfirm(host, p, quiet);
    if r.Err? { return; }
    r, second := RefreshAndConfirm(actor, host, p, quiet);
  }

  method BuildAndConfirm(host: Host, p: Prepared, ghost quiet: bool := false) returns (r: EngineResult<()>)
    requires quiet ==> host.Still(2) && Contents(host.Disk(), p.file) == Some(p.replacement)
    modifies host`since, host`request, host`log
    ensures OnlyInterrupted(old(host.request), host.request) && host.Later()
    ensures old(host.Clock()) < host.Clock() && Calm(old(host.log), host.log)
    ensures r.Ok? <==> Reaches(host.script, old(host.Clock()), old(host.request), old(host.Disk()), p)
    ensures r.Ok? ==> host.log == old(host.log) + [Built(Succeeded), Confirmed(p.file, p.replacement)]
    ensures r.Ok? ==> host.Clock() == old(host.Clock()) + 2
    ensures r.Err? ==> host.Clock() == Stopped(host.script, old(host.Clock()), old(host.request))
    ensures r.Err? && r.error.RequestCancelled? ==> host.request.IsCancelled()
    ensures quiet ==> r.Ok? && host.Waited(2)
  {
    r := NativeBuild(host);
    if r.Err? { return; }
    r := RequireContents(host, p.file, p.replacement);
  }

  method RefreshAndConfirm(actor: PetActor, host: Host, p: Prepared, ghost quiet: bool := false) returns (r: EngineResult<()>, ghost second: Moment)
    requires actor.Valid()
    requires quiet ==> actor.IsUp() && host.Still(2) && Contents(host.Disk(), p.file) == Some(p.replacement)
    modifies actor`process, actor`epoch, host`since, host`request, host`log
    ensures actor.Steady(host) && Table(actor.process) == map[] && Calm(old(host.log), host.log)
    ensures r.Ok? ==> actor.epoch > old(actor.epoch)
                      && host.log == old(host.log) + [Refreshed(actor.epoch), Confirmed(p.file, p.replacement)]
                      && host.Passed(second) && InPlace(host.script, second, p)
    ensures r.Err? && r.error.RequestCancelled? ==> host.request.IsCancelled()
    ensures quiet ==> r.Ok? && actor.process == Started(host.script(old(host.Clock()))) && host.Waited(2)
  {
    r := RefreshAndRecord(actor, host, quiet);
    host.Arrived();
    second := host.Now();
    if r.Err? { return; }
    r := RequireContents(host, p.file, p.replacement);
  }

  /** When a certification that does not reach its refresh stops. */
  function Stopped(script: nat -> Event, t: nat, request: RequestState): nat {
    if Builds(script(t), request) then t + 2 else t + 1
  }

  /** From `m` on nothing moves, the replacement is in place, and the prover to be refreshed will find all well. */
  ghost predicate Certifiable(script: nat -> Event, rocq: Rocq, m: Moment, p: Prepared, name: seq<string>, kind: Kind) {
    var env := script(m.clock + 2).env;
    && Contents(m.disk, p.file) == Some(p.replacement) && Acceptable(rocq, env, m.disk, p.file, name, Some(kind))
    && !m.request.IsCancelled() && Hush(script, m.clock, m.clock + 5 + Effort(rocq, env, m.disk, p.file, name))
  }

  /** The same of a publication that is still to write: its write goes through. */
  ghost predicate Smooth(script: nat -> Event, rocq: Rocq, m: Moment, p: Prepared, name: seq<string>, kind: Kind) {
    && Contents(m.disk, p.file) == Some(p.original) && Peaceful(script(m.clock)) && script(m.clock).write.Persisted?
    && Certifiable(script, rocq, Moment(m.clock + 1, m.request, m.disk[p.file := Stored(p.replacement, true)]), p, name, kind)
  }

  /** Build, confirm, refresh, confirm, validate, confirm: all of it, in this order, or an error. */
  method Certify(actor: PetActor, host: Host, p: Prepared, name: seq<string>, kind: Kind, ghost quiet: bool := false)
      returns (r: EngineResult<()>, ghost seal: Seal)
    requires actor.Valid() && !actor.silentLoss
    requires quiet ==> actor.IsUp() && Certifiable(host.script, actor.rocq, host.Now(), p, name, kind)
    modifies actor`process, actor`epoch, actor`silentLoss, host`since, host`request, host`log
    ensures actor.Steady(host)
    ensures Calm(old(host.log), host.log)
    ensures r.Ok? ==> actor.epoch > old(actor.epoch) && actor.process.Some? && actor.process.value.env == seal.vet.env
                      && Sealed(host.script, actor.rocq, old(host.era), old(host.Now()), host.Clock(), p, name, kind, seal)
                      && host.log == old(host.log) + Certificate(p, kind, actor.epoch, seal.vet.report)
    ensures r.Err? && r.error.RequestCancelled? ==> host.request.IsCancelled()
    ensures !Reaches(host.script, old(host.Clock()), old(host.request), old(host.Disk()), p) ==>
              && r.Err? && actor.process == old(actor.process)
              && host.Clock() == Stopped(host.script, old(host.Clock()), old(host.request))
    ensures Reaches(host.script, old(host.Clock()), old(host.request), old(host.Disk()), p) ==> Table(actor.process) == map[]
    ensures quiet ==> r.Ok?
  {
    hide Acceptable, Effort, Lasts, Vetted, Spans, Certificate, Calm;
    seal := NoSeal(host);
    ghost var second, vet, third;
    r, second := Rebuild(actor, host, p, quiet);
    if r.Err? { return; }
    ghost var rebuilt, epoch, mid := host.log, actor.epoch, host.Clock();
    r, vet, third := ValidateAndConfirm(actor, host, p, name, kind, quiet);
    CertificateJoins(old(host.log), rebuilt, host.log, p, kind, epoch, vet.report);
    CalmOn(old(host.log), rebuilt, host.log);
    if r.Ok? {
      LastsLonger(host.script, actor.rocq, old(host.era), second.clock + 1, mid, host.Clock(), p, name, kind, vet, third);
    }
    seal := Seal(second, vet, third);
  }

  lemma CertificateJoins(a: seq<Effect>, b: seq<Effect>, c: seq<Effect>, p: Prepared, kind: Kind, epoch: nat, report: Report)
    requires b == a + Certificate(p, Theorem, epoch, Report(true, []))[..4]
    ensures c == b + Certificate(p, kind, epoch, report)[4..] ==> c == a + Certificate(p, kind, epoch, report)
  {
  }

  /** The second half: validate in the refreshed context, and see the replacement still there. */
  method ValidateAndConfirm(actor: PetActor, host: Host, p: Prepared, name: seq<string>, kind: Kind, ghost quiet: bool := false)
      returns (r: EngineResult<()>, ghost vet: Vet, ghost third: Moment)
    requires actor.Valid() && !actor.silentLoss && Table(actor.process) == map[]
    requires quiet ==> actor.IsUp() && Contents(host.Disk(), p.file) == Some(p.replacement)
                       && Acceptable(actor.rocq, actor.process.value.env, host.Disk(), p.file, name, Some(kind))
                       && host.Still(1 + Effort(actor.rocq, actor.process.value.env, host.Disk(), p.file, name))
    modifies actor`process, actor`epoch, actor`silentLoss, host`since, host`request, host`log
    ensures actor.Steady(host) && Calm(old(host.log), host.log) && Table(actor.process) == map[]
    ensures r.Ok? ==> actor.epoch == old(actor.epoch) && actor.process.Some? && actor.process.value.env == vet.env
                      && Lasts(host.script, actor.rocq, old(host.era), old(host.Clock()), host.Clock(), p, name, kind, vet, third)
                      && host.log == old(host.log) + Certificate(p, kind, actor.epoch, vet.report)[4..]
    ensures r.Err? && r.error.RequestCancelled? ==> host.request.IsCancelled()
    ensures quiet ==> r.Ok?
  {
    hide Vetted, Acceptable;
    r, vet := Validate(actor, host, p.file, name, Some(kind), quiet);
    host.Arrived();
    third := host.Now();
    if r.Err? { return; }
    r := RequireContents(host, p.file, p.replacement);
  }

  /**
   * The writes of a publication: the first only over the original, a second only over our own
   * replacement, and nothing else before, between or after.
   */
  ghost predicate WroteOnly(before: seq<Effect>, after: seq<Effect>, p: Prepared, outcome: Outcome) {
    var first := before + SwapEffects(outcome.first, p.file, p.original, p.replacement);
    match outcome.rollback
    case None => Calm(first, after)
    case Some(w) => exists middle :: Calm(first, middle) && Calm(middle + SwapEffects(w, p.file, p.replacement, p.original), after)
  }

  /** So whatever it overwrote was, at that moment, the original or its own replacement. */
  lemma OnlyOwnTextIsOverwritten(before: seq<Effect>, after: seq<Effect>, p: Prepared, outcome: Outcome, i: nat)
    requires WroteOnly(before, after, p, outcome)
    requires |before| <= i < |after| && after[i].Wrote?
    ensures after[i] == Wrote(p.file, p.original, p.replacement) || after[i] == Wrote(p.file, p.replacement, p.original)
    ensures after[i].before == p.original || (outcome.rollback.Some? && outcome.rollback.value.Landed())
  {
    var first := before + SwapEffects(outcome.first, p.file, p.original, p.replacement);
    if outcome.rollback.None? || i < |first| {
      assert i < |first| ==> after[i] == first[i];
    } else {
      var w := outcome.rollback.value;
      var middle :| Calm(first, middle) && Calm(middle + SwapEffects(w, p.file, p.replacement, p.original), after);
      var second := middle + SwapEffects(w, p.file, p.replacement, p.original);
      assert i < |second| ==> after[i] == second[i];
    }
  }

  /** The first compare-and-write of a publication begun at `t`, and the disk it leaves. */
  function First(script: nat -> Event, t: nat, disk: map<File, Stored>, p: Prepared): Swap {
    Swapping(script(t), disk, p.file, p.original)
  }

  function Landing(script: nat -> Event, t: nat, disk: map<File, Stored>, p: Prepared): map<File, Stored> {
    SwapDisk(script(t), disk, p.file, p.original, p.replacement)
  }

  /** After a first write that ended like this, it stops from `t` on before it has refreshed the prover. */
  predicate Early(script: nat -> Event, t: nat, request: RequestState, disk: map<File, Stored>, p: Prepared, first: Swap) {
    !first.Swapped? || !Reaches(script, t, request, disk, p)
  }

  function EarlyAt(script: nat -> Event, t: nat, request: RequestState, first: Swap): (at: nat)
    ensures t <= at
  {
    if first.Swapped? then Stopped(script, t, request) else t
  }

  /** A publication begun at `t` gives up before it has refreshed the prover. */
  predicate GivesUpEarly(script: nat -> Event, t: nat, request: RequestState, disk: map<File, Stored>, p: Prepared) {
    Early(script, t + 1, Deliver(request, script(t).signal), Landing(script, t, disk, p), p, First(script, t, disk, p))
  }

  /** When the rollback of such a publication looks. */
  function EarlyLook(script: nat -> Event, t: nat, request: RequestState, disk: map<File, Stored>, p: Prepared): (at: nat)
    ensures t < at
  {
    EarlyAt(script, t + 1, Deliver(request, script(t).signal), First(script, t, disk, p))
  }

  /** The rollback's own write failed before anything was refreshed: the old process is left exporting everything. */
  predicate Stuck(script: nat -> Event, t: nat, request: RequestState, disk: map<File, Stored>, p: Prepared) {
    && GivesUpEarly(script, t, request, disk, p)
    && var at := EarlyLook(script, t, request, disk, p);
       Failed(Swapping(script(at), Drift(script, t + 1, at - t - 1, Landing(script, t, disk, p)), p.file, p.replacement))
  }

  /** The rollback looked at `at`, over what others had made of `disk` since `t`. */
  ghost predicate RestoredAt(script: nat -> Event, t: nat, disk: map<File, Stored>, at: nat, p: Prepared, rollback: Option<Swap>,
                             end: nat, after: map<File, Stored>)
  {
    t <= at < end &&
    var seen := Drift(script, t, at - t, disk);
    && rollback == Some(Swapping(script(at), seen, p.file, p.replacement))
    && after == Drift(script, at + 1, end - at - 1, SwapDisk(script(at), seen, p.file, p.replacement, p.original))
  }

  /**
   * How a publication begun at `t` over `start` was rolled back: it looked at `at`, at what its first
   * write and other programs had left by then; what it left, and other programs after it, is there at
   * the end.
   */
  ghost predicate RolledBack(script: nat -> Event, t: nat, start: map<File, Stored>, at: nat, p: Prepared, outcome: Outcome,
                             end: nat, disk: map<File, Stored>)
  {
    RestoredAt(script, t + 1, Landing(script, t, start, p), at, p, outcome.rollback, end, disk)
  }

  /** Another program writes to the file, or removes it, at some event from `from` until just before `to`. */
  ghost predicate Disturbed(script: nat -> Event, file: File, from: nat, to: nat) {
    exists u: nat :: from <= u < to && Touches(script(u), file)
  }

  predicate Touches(e: Event, file: File) {
    e.edit.Some? && e.edit.value.file == file
  }

  /** Text of ours is still on disk exactly when it was and nobody touched its file since. */
  lemma {:induction false} OursUntilDisturbed(script: nat -> Event, t: nat, n: nat, disk: map<File, Stored>, file: File, text: Text)
    ensures LeftOnDisk(Drift(script, t, n, disk), file, text) <==> LeftOnDisk(disk, file, text) && !Disturbed(script, file, t, t + n)
    decreases n
  {
    if n > 0 {
      OursUntilDisturbed(script, t, n - 1, disk, file, text);
      if Touches(script(t + n - 1), file) {
        assert Disturbed(script, file, t, t + n);
      } else if Disturbed(script, file, t, t + n) {
        var u: nat :| t <= u < t + n && Touches(script(u), file);
        assert Disturbed(script, file, t, t + n - 1);
      }
    }
  }

  /**
   * When our replacement outlives a rollback: exactly when the first write, or an earlier publication,
   * had left it there, nobody else touched the file from then on, and at its one look the rollback
   * could not read the file or could not write it.
   */
  lemma ReplacementStays(script: nat -> Event, t: nat, start: map<File, Stored>, at: nat, p: Prepared, outcome: Outcome,
                         end: nat, disk: map<File, Stored>)
    requires RolledBack(script, t, start, at, p, outcome, end, disk) && p.original != p.replacement
    ensures LeftOnDisk(disk, p.file, p.replacement) <==>
              && LeftOnDisk(Landing(script, t, start, p), p.file, p.replacement)
              && !Disturbed(script, p.file, t + 1, end)
              && (!script(at).readable || script(at).write.NotWritten?)
    ensures First(script, t, start, p).Landed() ==> LeftOnDisk(Landing(script, t, start, p), p.file, p.replacement)
  {
    var landed := Landing(script, t, start, p);
    var seen := Drift(script, t + 1, at - t - 1, landed);
    OursUntilDisturbed(script, t + 1, at - t - 1, landed, p.file, p.replacement);
    OursUntilDisturbed(script, at + 1, end - at - 1, SwapDisk(script(at), seen, p.file, p.replacement, p.original), p.file, p.replacement);
    OneDisturbance(script, p.file, t + 1, at, end);
  }

  lemma OneDisturbance(script: nat -> Event, file: File, from: nat, at: nat, to: nat)
    requires from <= at < to
    ensures Disturbed(script, file, from, to) <==>
              Disturbed(script, file, from, at) || Touches(script(at), file) || Disturbed(script, file, at + 1, to)
  {
    if Disturbed(script, file, from, to) && !Touches(script(at), file) && !Disturbed(script, file, at + 1, to) {
      var u: nat :| from <= u < to && Touches(script(u), file);
      assert Disturbed(script, file, from, at);
    }
  }

  /**
   * When a rollback takes another program's bytes away: exactly when that program's last word before
   * the look equals the prepared replacement, could be read, and the write went through.
   */
  lemma ForeignBytesGo(script: nat -> Event, t: nat, start: map<File, Stored>, at: nat, p: Prepared, outcome: Outcome,
                       end: nat, disk: map<File, Stored>)
    requires RolledBack(script, t, start, at, p, outcome, end, disk)
    requires var now := Drift(script, t + 1, at - t, Landing(script, t, start, p));
             p.file in now && !now[p.file].ours
    ensures var now := Drift(script, t + 1, at - t, Landing(script, t, start, p));
            outcome.rollback.value.Landed() <==> now[p.file].text == p.replacement && script(at).readable && !script(at).write.NotWritten?
    ensures outcome.rollback.value.Landed() && !Disturbed(script, p.file, at + 1, end) ==> LeftOnDisk(disk, p.file, p.original)
  {
    var seen := Drift(script, t + 1, at - t - 1, Landing(script, t, start, p));
    OursUntilDisturbed(script, at + 1, end - at - 1, SwapDisk(script(at), seen, p.file, p.replacement, p.original), p.file, p.original);
  }

  /** The certificate of a publication whose first event was `t`, over `disk`: its write went through and began an era. */
  ghost predicate SealedAfter(script: nat -> Event, rocq: Rocq, t: nat, request: RequestState, disk: map<File, Stored>, to: nat, p: Prepared,
                              name: seq<string>, kind: Kind, seal: Seal)
  {
    var landed := Landing(script, t, disk, p);
    Sealed(script, rocq, Era(t + 1, landed), Moment(t + 1, Deliver(request, script(t).signal), landed), to, p, name, kind, seal)
  }

  lemma SealedLonger(script: nat -> Event, rocq: Rocq, t: nat, request: RequestState, disk: map<File, Stored>, mid: nat, to: nat, p: Prepared,
                     name: seq<string>, kind: Kind, seal: Seal)
    requires mid <= to && SealedAfter(script, rocq, t, request, disk, mid, p, name, kind, seal)
    ensures SealedAfter(script, rocq, t, request, disk, to, p, name, kind, seal)
  {
    hide Vetted;
  }

  /**
   * One publication. It succeeds exactly when it needed no rollback, and then with its certificate
   * complete. Its first write is the one the world allowed at its first event; `RolledBack` says how a
   * failing one ended, at a point that is fixed when nothing was refreshed yet. The prover keeps what
   * it exported exactly when the publication got stuck.
   */
  method Publish(actor: PetActor, host: Host, p: Prepared, name: seq<string>, kind: Kind, ghost quiet: bool := false)
      returns (r: EngineResult<()>, outcome: Outcome, ghost seal: Seal, ghost at: nat)
    requires actor.Valid() && !actor.silentLoss
    requires quiet ==> actor.IsUp() && Smooth(host.script, actor.rocq, host.Now(), p, name, kind)
    modifies actor`process, actor`epoch, actor`silentLoss, host
    ensures actor.Steady(host) && old(host.Clock()) < host.Clock()
    ensures outcome.first == First(host.script, old(host.Clock()), old(host.Disk()), p)
    ensures r.Ok? <==> outcome.rollback.None?
    ensures r.Ok? ==> outcome.first.Swapped? && actor.epoch > old(actor.epoch) && actor.process.Some? && actor.process.value.env == seal.vet.env
                      && SealedAfter(host.script, actor.rocq, old(host.Clock()), old(host.request), old(host.Disk()), host.Clock(), p, name, kind, seal)
                      && host.log == old(host.log) + [Wrote(p.file, p.original, p.replacement)] + Certificate(p, kind, actor.epoch, seal.vet.report)
    ensures r.Ok? ==> host.Disk() == Drift(host.script, old(host.Clock()) + 1, host.Clock() - old(host.Clock()) - 1,
                                           Landing(host.script, old(host.Clock()), old(host.Disk()), p))
    ensures WroteOnly(old(host.log), host.log, p, outcome)
    ensures r.Err? ==> RolledBack(host.script, old(host.Clock()), old(host.Disk()), at, p, outcome, host.Clock(), host.Disk())
    ensures GivesUpEarly(host.script, old(host.Clock()), old(host.request), old(host.Disk()), p) ==>
              r.Err? && at == EarlyLook(host.script, old(host.Clock()), old(host.request), old(host.Disk()), p)
    ensures r.Err? && !(outcome.first.Swapped? && outcome.rollback.value.Swapped?) ==>
              r.error == DeclarationChanged || r.error == InvalidConfiguration
    ensures r.Err? && r.error.RequestCancelled? ==> host.request.IsCancelled()
    ensures Stuck(host.script, old(host.Clock()), old(host.request), old(host.Disk()), p) ==>
              r == Err(InvalidConfiguration) && actor.process == old(actor.process)
    ensures !Stuck(host.script, old(host.Clock()), old(host.request), old(host.Disk()), p) ==> Table(actor.process) == map[]
    ensures quiet ==> r.Ok?
  {
    hide Sealed, Certifiable;
    ghost var t, request, disk := host.Clock(), host.request, host.Disk();
    var first := ReplaceIf(host, p.file, p.original, p.replacement);
    ghost var landed := Landing(host.script, t, disk, p);
    ghost var start := Moment(t + 1, Deliver(request, host.script(t).signal), landed);
    r, outcome, seal, at := Settle(actor, host, p, first, name, kind, if first.Swapped? then Era(t + 1, landed) else host.era, start,
                                    quiet);
    SeenFromTheStart(host.script, t, request, disk, at, p, outcome, host.Clock(), host.Disk());
  }

  lemma SeenFromTheStart(script: nat -> Event, t: nat, request: RequestState, disk: map<File, Stored>, at: nat, p: Prepared, outcome: Outcome,
                         end: nat, after: map<File, Stored>)
    ensures RestoredAt(script, t + 1, Landing(script, t, disk, p), at, p, outcome.rollback, end, after) ==>
              RolledBack(script, t, disk, at, p, outcome, end, after)
    ensures RolledBack(script, t, disk, at, p, outcome, end, after) && GivesUpEarly(script, t, request, disk, p)
            && at == EarlyLook(script, t, request, disk, p) ==>
              (Stuck(script, t, request, disk, p) <==> Failed(outcome.rollback.value))
  {
  }

  /** After the first write: the certificate if it went through, otherwise the rollback. */
  method Settle(actor: PetActor, host: Host, p: Prepared, first: Swap, name: seq<string>, kind: Kind, ghost era: Era, ghost start: Moment,
                ghost quiet: bool)
      returns (r: EngineResult<()>, outcome: Outcome, ghost seal: Seal, ghost at: nat)
    requires actor.Valid() && !actor.silentLoss && host.era == era && host.Now() == start
    requires quiet ==> first.Swapped? && actor.IsUp() && Certifiable(host.script, actor.rocq, start, p, name, kind)
    modifies actor`process, actor`epoch, actor`silentLoss, host
    ensures actor.Steady(host)
    ensures outcome.first == first && (r.Ok? <==> outcome.rollback.None?)
    ensures r.Ok? ==> first.Swapped? && actor.epoch > old(actor.epoch) && actor.process.Some? && actor.process.value.env == seal.vet.env
                      && Sealed(host.script, actor.rocq, era, start, host.Clock(), p, name, kind, seal)
                      && host.log == old(host.log) + Certificate(p, kind, actor.epoch, seal.vet.report)
                      && host.Disk() == Drift(host.script, start.clock, host.Clock() - start.clock, start.disk)
    ensures r.Err? ==> exists middle :: Calm(old(host.log), middle)
                         && Calm(middle + SwapEffects(outcome.rollback.value, p.file, p.replacement, p.original), host.log)
    ensures r.Err? ==> RestoredAt(host.script, start.clock, start.disk, at, p, outcome.rollback, host.Clock(), host.Disk())
    ensures r.Err? && !(first.Swapped? && outcome.rollback.value.Swapped?) ==> r.error == DeclarationChanged || r.error == InvalidConfiguration
    ensures r.Err? && r.error.RequestCancelled? ==> host.request.IsCancelled()
    ensures var early := Early(host.script, start.clock, start.request, start.disk, p, first);
            && (early ==> r.Err? && at == EarlyAt(host.script, start.clock, start.request, first))
            && (early && Failed(outcome.rollback.value) ==> r == Err(InvalidConfiguration) && actor.process == old(actor.process))
            && (!(early && Failed(outcome.rollback.value)) ==> Table(actor.process) == map[])
    ensures quiet ==> r.Ok?
  {
    hide Sealed, Certifiable;
    var certified;
    certified, seal := CertifyIf(actor, host, p, first, name, kind, era, start, quiet);
    host.Drifted();
    at := host.Clock();
    if certified.Ok? { return Ok(()), Outcome(first, None), seal, at; }
    var swap;
    r, swap := Retreat(actor, host, p, first, certified.error, start.clock, start.disk);
    outcome := Outcome(first, Some(swap));
  }

  lemma SeenBefore(script: nat -> Event, t: nat, disk: map<File, Stored>, at: nat, seen: map<File, Stored>, p: Prepared, rollback: Option<Swap>,
                   end: nat, after: map<File, Stored>)
    requires t <= at && seen == Drift(script, t, at - t, disk) && RestoredAt(script, at, seen, at, p, rollback, end, after)
    ensures RestoredAt(script, t, disk, at, p, rollback, end, after)
  {
  }

  /** The certificate of a first write that went through; any other one has none. */
  method CertifyIf(actor: PetActor, host: Host, p: Prepared, first: Swap, name: seq<string>, kind: Kind, ghost era: Era, ghost start: Moment,
                   ghost quiet: bool)
      returns (r: EngineResult<()>, ghost seal: Seal)
    requires actor.Valid() && !actor.silentLoss && host.era == era && host.Now() == start
    requires quiet ==> first.Swapped? && actor.IsUp() && Certifiable(host.script, actor.rocq, start, p, name, kind)
    modifies actor`process, actor`epoch, actor`silentLoss, host`since, host`request, host`log
    ensures actor.Steady(host) && Calm(old(host.log), host.log)
    ensures r.Ok? ==> first.Swapped? && actor.epoch > old(actor.epoch) && actor.process.Some? && actor.process.value.env == seal.vet.env
                      && Sealed(host.script, actor.rocq, era, start, host.Clock(), p, name, kind, seal)
                      && host.log == old(host.log) + Certificate(p, kind, actor.epoch, seal.vet.report)
    ensures r.Err? && r.error.RequestCancelled? ==> host.request.IsCancelled()
    ensures r.Err? && !first.Swapped? ==> r.error == DeclarationChanged || r.error == InvalidConfiguration
    ensures if Early(host.script, start.clock, start.request, start.disk, p, first) then
              r.Err? && actor.process == old(actor.process)
              && host.Clock() == EarlyAt(host.script, start.clock, start.request, first)
            else Table(actor.process) == map[]
    ensures quiet ==> r.Ok?
  {
    if first.Swapped? {
      r, seal := Certify(actor, host, p, name, kind, quiet);
    } else {
      seal := NoSeal(host);
      r := Err(if first.Foreign? || first.Unreadable? then DeclarationChanged else InvalidConfiguration);
    }
  }

  /** Roll back; the error is the certificate's unless the rollback failed or somebody else had won. */
  method Retreat(actor: PetActor, host: Host, p: Prepared, first: Swap, error: ErrorKind, ghost t: nat, ghost disk: map<File, Stored>)
      returns (r: EngineResult<()>, swap: Swap)
    requires actor.Valid() && t <= host.Clock() && host.Disk() == Drift(host.script, t, host.Clock() - t, disk)
    modifies actor`process, actor`epoch, host
    ensures actor.Steady(host) && r.Err?
    ensures RestoredAt(host.script, t, disk, old(host.Clock()), p, Some(swap), host.Clock(), host.Disk())
    ensures Calm(old(host.log) + SwapEffects(swap, p.file, p.replacement, p.original), host.log)
    ensures var restored := !Failed(swap) && exists epoch :: Admitted(old(host.log) + SwapEffects(swap, p.file, p.replacement, p.original), host.log, epoch);
            r.error == if !restored then InvalidConfiguration else if first.Swapped? && !swap.Swapped? then DeclarationChanged else error
    ensures Failed(swap) ==> r.error == InvalidConfiguration && actor.process == old(actor.process)
    ensures !Failed(swap) ==> Table(actor.process) == map[]
  {
    var restored;
    restored, swap := RestoreEpoch(actor, host, p);
    SeenBefore(host.script, t, disk, old(host.Clock()), old(host.Disk()), p, Some(swap), host.Clock(), host.Disk());
    r := Err(if restored.Err? then restored.error else if first.Swapped? && !restored.value then DeclarationChanged else error);
  }

  /** Build, and refresh whether or not the build succeeded; a failed refresh takes precedence. */
  method BuildAndRefresh(actor: PetActor, host: Host, ghost quiet: bool := false) returns (r: EngineResult<()>)
    requires actor.Valid()
    requires quiet ==> actor.IsUp() && host.Still(2)
    modifies actor`process, actor`epoch, host`since, host`request, host`log
    ensures actor.Steady(host) && Calm(old(host.log), host.log) && Table(actor.process) == map[]
    ensures r.Ok? ==> actor.epoch > old(actor.epoch) && Builds(host.script(old(host.Clock())), old(host.request))
                      && host.log == old(host.log) + [Built(Succeeded), Refreshed(actor.epoch)]
    ensures old(host.Clock()) < host.Clock()
    ensures r.Err? && r.error.RequestCancelled? ==> host.request.IsCancelled()
    ensures quiet ==> r.Ok? && actor.process == Started(host.script(old(host.Clock()) + 1)) && host.Waited(2)
  {
    var build := NativeBuild(host);
    r := RefreshAndRecord(actor, host, quiet);
    if r.Ok? { r := build; }
  }

  /** From `m` on nothing moves, and the prover to be refreshed will find all well. */
  ghost predicate SmoothLook(script: nat -> Event, rocq: Rocq, m: Moment, file: File, name: seq<string>) {
    var env := script(m.clock + 2).env;
    && Acceptable(rocq, env, m.disk, file, name, None) && !m.request.IsCancelled()
    && Hush(script, m.clock, m.clock + 4 + Effort(rocq, env, m.disk, file, name))
  }

  /**
   * Validate a declaration that is already complete in its source; nothing is ever written. When the
   * very first look fails the prover is not touched; in every other case nothing it exported survives.
   */
  method ValidatePublished(actor: PetActor, host: Host, target: Target, ghost quiet: bool := false)
      returns (r: EngineResult<()>, ghost vet: Vet, ghost again: Moment)
    requires actor.Valid() && !actor.silentLoss
    requires quiet ==> actor.IsUp() && Contents(host.Disk(), target.file) == Some(target.source)
                       && SmoothLook(host.script, actor.rocq, host.Now(), target.file, target.name)
    modifies actor`process, actor`epoch, actor`silentLoss, host`since, host`request, host`log
    ensures actor.Steady(host) && old(host.Clock()) < host.Clock()
    ensures Calm(old(host.log), host.log)
    ensures r.Ok? ==> actor.epoch > old(actor.epoch) && actor.process.Some? && actor.process.value.env == vet.env
                      && Revetted(host.script, actor.rocq, old(host.era), old(host.Now()), host.Clock(), target, vet, again)
                      && host.log == old(host.log) + Evidence(vet.kind, actor.epoch, vet.report)
    ensures r.Err? && r.error.RequestCancelled? ==> host.request.IsCancelled()
    ensures !Holds(host.script, old(host.Clock()), old(host.Disk()), target) ==>
              r == Err(DeclarationChanged) && actor.process == old(actor.process) && actor.epoch == old(actor.epoch)
    ensures Holds(host.script, old(host.Clock()), old(host.Disk()), target) ==> Table(actor.process) == map[]
    ensures quiet ==> r.Ok?
  {
    hide Rechecks, Acceptable, Effort, Vetted, Spans, Evidence;
    vet, again := NoVet(host), host.Now();
    r := ValidateTarget(host, target);
    if r.Err? { return; }
    r := BuildAndRefresh(actor, host, quiet);
    if r.Err? { return; }
    ghost var built, epoch, mid := host.log, actor.epoch, host.Clock();
    r, vet, again := LookAndValidate(actor, host, target, quiet);
    EvidenceJoins(old(host.log), built, host.log, vet.kind, epoch, vet.report);
    CalmOn(old(host.log), built, host.log);
    if r.Ok? {
      RechecksLonger(host.script, actor.rocq, old(host.era), old(host.Clock()) + 2, mid, host.Clock(), target, vet, again);
    }
  }

  lemma EvidenceJoins(a: seq<Effect>, b: seq<Effect>, c: seq<Effect>, kind: Kind, epoch: nat, report: Report)
    requires b == a + [Built(Succeeded), Refreshed(epoch)]
    ensures c == b + [Resolved(true, kind, epoch), Audited(epoch, report)] ==> c == a + Evidence(kind, epoch, report)
  {
  }

  /**
   * What stands behind a validation begun at `m`: its source was in place then, the build went through, the
   * source was in place again, and after that the declaration was found finished and audited.
   */
  ghost predicate Revetted(script: nat -> Event, rocq: Rocq, era: Era, m: Moment, to: nat, target: Target, vet: Vet, again: Moment) {
    && Holds(script, m.clock, m.disk, target) && Builds(script(m.clock + 1), Deliver(m.request, script(m.clock).signal))
    && Rechecks(script, rocq, era, m.clock + 2, to, target, vet, again)
  }

  ghost predicate Rechecks(script: nat -> Event, rocq: Rocq, era: Era, from: nat, to: nat, target: Target, vet: Vet, again: Moment) {
    && During(script, era, from, to, again) && Holds(script, again.clock, again.disk, target)
    && Spans(script, era, again.clock + 1, to, vet) && Vetted(rocq, target.file, target.name, vet)
  }

  lemma RechecksLonger(script: nat -> Event, rocq: Rocq, era: Era, from: nat, mid: nat, to: nat, target: Target, vet: Vet, again: Moment)
    requires from <= mid && Rechecks(script, rocq, era, mid, to, target, vet, again)
    ensures Rechecks(script, rocq, era, from, to, target, vet, again)
  {
  }

  lemma RevettedLonger(script: nat -> Event, rocq: Rocq, era: Era, m: Moment, mid: nat, to: nat, target: Target, vet: Vet, again: Moment)
    requires mid <= to && Revetted(script, rocq, era, m, mid, target, vet, again)
    ensures Revetted(script, rocq, era, m, to, target, vet, again)
  {
    hide Vetted;
  }

  /** After the build: the source once more, then the validation. */
  method LookAndValidate(actor: PetActor, host: Host, target: Target, ghost quiet: bool := false)
      returns (r: EngineResult<()>, ghost vet: Vet, ghost again: Moment)
    requires actor.Valid() && !actor.silentLoss && Table(actor.process) == map[]
    requires quiet ==> actor.IsUp() && Contents(host.Disk(), target.file) == Some(target.source)
                       && Acceptable(actor.rocq, actor.process.value.env, host.Disk(), target.file, target.name, None)
                       && host.Still(1 + Effort(actor.rocq, actor.process.value.env, host.Disk(), target.file, target.name))
    modifies actor`process, actor`epoch, actor`silentLoss, host`since, host`request, host`log
    ensures actor.Steady(host) && Table(actor.process) == map[]
    ensures r.Ok? ==> actor.epoch == old(actor.epoch) && actor.process.Some? && actor.process.value.env == vet.env
                      && Rechecks(host.script, actor.rocq, old(host.era), old(host.Clock()), host.Clock(), target, vet, again)
                      && host.log == old(host.log) + [Resolved(true, vet.kind, actor.epoch), Audited(actor.epoch, vet.report)]
    ensures Calm(old(host.log), host.log)
    ensures r.Err? && r.error.RequestCancelled? ==> host.request.IsCancelled()
    ensures quiet ==> r.Ok?
  {
    hide Vetted, Acceptable;
    vet, again := NoVet(host), host.Now();
    r := ValidateTarget(host, target);
    if r.Err? { return; }
    r, vet := Validate(actor, host, target.file, target.name, None, quiet);
  }

  function Evidence(kind: Kind, epoch: nat, report: Report): seq<Effect> {
    [Built(Succeeded), Refreshed(epoch), Resolved(true, kind, epoch), Audited(epoch, report)]
  }

  // ---------------------------------------------------------------- where the promise fails

  function Calmly(readable: bool, write: Write, build: Build, edit: Option<Edit>): Event {
    Event(Quiet, edit, Answered, false, 0, 0, build, write, readable, true, Err(NotFound), Ok(false))
  }

  /** A prover with nothing to say. */
  function Idle(): Rocq {
    Rocq((e, text) => [], (e, text, name) => 0, (e, file, text, offset) => RocqState(0),
         (s, fragment) => Rejected(s), s => true, s => true, s => false, s => View([], None), (s, name) => Report(false, []))
  }

  /**
   * A whole publication in which no write fails, and yet the replacement stays: the build rejects
   * the new source and the rollback cannot read the file back.
   */
  method UnreadableRollbackKeepsReplacement(file: File, original: Text, replacement: Text) returns (host: Host, r: EngineResult<()>, outcome: Outcome)
    requires original != replacement
    ensures r.Err? && outcome == Outcome(Swapped, Some(Unreadable))
    ensures LeftOnDisk(host.Disk(), file, replacement)
    ensures forall t :: host.script(t).write.Persisted?
  {
    var script := (t: nat) => Calmly(t != 2, Persisted, SourceRejected, None);
    host := new Host(script, map[file := Stored(original, false)]);
    var actor := new PetActor(Idle());
    assert host.script(0) == Calmly(true, Persisted, SourceRejected, None) && host.script(1) == host.script(0);
    assert host.script(2) == Calmly(false, Persisted, SourceRejected, None);
    assert forall t :: host.script(t).edit.None?;
    var p := Prepared(file, original, replacement);
    ghost var seal, at;
    r, outcome, seal, at := Publish(actor, host, p, [], Theorem);
    UnreadStays(host.script, file, original, replacement, at, outcome, host.Clock(), host.Disk());
  }

  lemma UnreadStays(script: nat -> Event, file: File, original: Text, replacement: Text, at: nat, outcome: Outcome, end: nat, disk: map<File, Stored>)
    requires original != replacement && at == 2 && script(0) == Calmly(true, Persisted, SourceRejected, None)
    requires script(2) == Calmly(false, Persisted, SourceRejected, None) && forall t :: script(t).edit.None?
    requires RolledBack(script, 0, map[file := Stored(original, false)], at, Prepared(file, original, replacement), outcome, end, disk)
    ensures outcome.rollback == Some(Unreadable) && LeftOnDisk(disk, file, replacement)
  {
    ReplacementStays(script, 0, map[file := Stored(original, false)], at, Prepared(file, original, replacement), outcome, end, disk);
  }

  /**
   * A whole publication that takes another program's bytes away, because they happen to equal the
   * prepared replacement: the first look finds them and declines, the rollback replaces them.
   */
  method ExternalTwinIsOverwritten(file: File, original: Text, replacement: Text) returns (host: Host, r: EngineResult<()>, outcome: Outcome)
    requires original != replacement
    ensures r.Err? && outcome == Outcome(Foreign, Some(Swapped))
    ensures host.script(0).edit == Some(Edit(file, Some(replacement)))
    ensures host.Disk() == map[file := Stored(original, true)]
  {
    var script := (t: nat) => Calmly(true, Persisted, Succeeded, if t == 0 then Some(Edit(file, Some(replacement))) else None);
    host := new Host(script, map[file := Stored(original, false)]);
    var actor := new PetActor(Idle());
    assert host.script(0) == Calmly(true, Persisted, Succeeded, Some(Edit(file, Some(replacement))));
    assert host.script(1) == Calmly(true, Persisted, Succeeded, None);
    assert forall t :: t > 0 ==> host.script(t).edit.None?;
    var p := Prepared(file, original, replacement);
    ghost var seal, at;
    r, outcome, seal, at := Publish(actor, host, p, [], Theorem);
    TwinGoes(host.script, file, original, replacement, at, outcome, host.Clock(), host.Disk());
  }

  lemma TwinGoes(script: nat -> Event, file: File, original: Text, replacement: Text, at: nat, outcome: Outcome, end: nat, disk: map<File, Stored>)
    requires original != replacement && at == 1 && script(0) == Calmly(true, Persisted, Succeeded, Some(Edit(file, Some(replacement))))
    requires forall t :: t > 0 ==> script(t) == Calmly(true, Persisted, Succeeded, None)
    requires RolledBack(script, 0, map[file := Stored(original, false)], at, Prepared(file, original, replacement), outcome, end, disk)
    ensures outcome.rollback == Some(Swapped) && disk == map[file := Stored(original, true)]
  {
    var restored := map[file := Stored(original, true)];
    assert map[file := Stored(replacement, false)][file := Stored(original, true)] == restored;
    assert map[file := Stored(original, false)][file := Stored(replacement, false)] == map[file := Stored(replacement, false)];
    DriftFree(script, 2, end - 2, restored);
  }
}
