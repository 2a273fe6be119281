/** The tools that open, close, move and query a proof. */
module Tools {
  import opened Outcomes
  import opened Sources
  import opened Checkpoints
  import opened Prover
  import opened Coherence
  import opened Hosts
  import opened Pet
  import opened Engine
  import opened Writeback
  import opened Runtime
  import opened Replay
  import opened Attempts
  import opened Publishing
  import opened Checking

  // ---------------------------------------------------------------- opening a proof

  /** A root just exported and not yet owned. */
  ghost predicate Rooted(rocq: Rocq, books: map<Session, Book>, begun: Opened, before: Option<Process>, now: Option<Process>) {
    && Coherent(rocq, books, before) && now.Some? && begun.root.state in Table(now)
    && Grown(before, now, map[begun.root.state := Table(now)[begun.root.state]])
    && Describes(rocq, begun.root, Table(now)[begun.root.state])
    && rocq.Root(now.value.env, begun.target) == Some(Table(now)[begun.root.state])
  }

  lemma BeginAdopts(rocq: Rocq, books: map<Session, Book>, s: Session, begun: Opened, before: Option<Process>, now: Option<Process>)
    requires s in books && Rooted(rocq, books, begun, before, now)
    ensures var (after, id) := books[s].Begin(begun.target, begun.root.state, begun.root.finished, begun.root.view);
            id.Ok? ==> WellFormed(after) && Coherent(rocq, books[s := after], now)
                       && Orphans(books[s := after], now) == Orphans(books, before)
  {
    var (after, id) := books[s].Begin(begun.target, begun.root.state, begun.root.finished, begun.root.view);
    if id.Ok? {
      assert WellFormed(books[s]);
      OneCommandKeepsTheTree(books[s], DoBegin(begun.target, begun.root.state, begun.root.finished, begun.root.view));
      assert Backed(rocq, after.proof.value, id.value, now);
      AdoptKeepsCoherence(rocq, books, before, now, s, after, id.value, begun.root.state, Table(now)[begun.root.state]);
    }
  }

  /** The book of a session that has just begun a proof: one node, the root, under a new identifier. */
  predicate BegunBook(before: Book, after: Book, begun: Opened, id: Id) {
    && before.proof.None? && id == before.next + 1
    && after == Book(id, Some(ProofSession(begun.target, id,
                 map[id := Checkpoint(None, Some(begun.root.state), None, begun.root.finished, begun.root.view)])))
  }

  method BeginProof(rt: ProjectRuntime, host: Host, s: Session, begun: Opened, ghost before: Option<Process>, ghost quiet: bool := false)
      returns (r: EngineResult<Id>)
    requires rt.Sound() && s in rt.sessions
    requires Rooted(rt.actor.rocq, rt.sessions, begun, before, rt.actor.process) && Publishable(rt.actor.rocq, begun.target)
    requires quiet ==> host.Still(1) && Room(rt.sessions[s])
    modifies rt`sessions, rt.actor`process, rt.actor`epoch, host`since, host`request
    ensures Upheld(rt, host, r) && SparedSince(rt, before)
    ensures Intact(r) ==> rt.Loose() <= Orphans(old(rt.sessions), before)
    ensures r.Err? ==> rt.sessions == old(rt.sessions)
    ensures r.Ok? ==> host.request.Committed? && rt.sessions == old(rt.sessions)[s := rt.sessions[s]]
                      && BegunBook(old(rt.sessions)[s], rt.sessions[s], begun, r.value) && rt.actor.process == old(rt.actor.process)
    ensures quiet ==> r.Ok? && rt.actor.epoch == old(rt.actor.epoch)
                      && host.Clock() == old(host.Clock()) + 1 && host.Disk() == old(host.Disk())
  {
    var won := host.Commit();
    if !won { return Err(RequestCancelled); }
    var (after, id) := rt.sessions[s].Begin(begun.target, begun.root.state, begun.root.finished, begun.root.view);
    if id.Err? {
      r := Unbegin(rt, host, begun, before, BookErrorKind(id.error));
      return;
    }
    BeginAdopts(rt.actor.rocq, rt.sessions, s, begun, before, rt.actor.process);
    rt.sessions := rt.sessions[s := after];
    r := Ok(id.value);
  }

  /** The book refused the proof: its root is given back before the error is returned. */
  method Unbegin(rt: ProjectRuntime, host: Host, begun: Opened, ghost before: Option<Process>, refusal: ErrorKind) returns (r: EngineResult<Id>)
    requires rt.Sound() && !InvalidatesEpoch(refusal) && Rooted(rt.actor.rocq, rt.sessions, begun, before, rt.actor.process)
    modifies rt.actor`process, rt.actor`epoch, host`since, host`request
    ensures Upheld(rt, host, r) && SparedSince(rt, before) && r.Err?
    ensures Intact(r) ==> rt.Loose() <= Orphans(rt.sessions, before)
  {
    ghost var st := Table(rt.actor.process)[begun.root.state];
    assert Elements([begun.root.state]) == {begun.root.state};
    AllButExtra(before, rt.actor.process, map[begun.root.state := st]);
    var released := ReleaseStaged(rt.actor, host, [begun.root.state], before, map[begun.root.state := st]);
    if released.Err? { return Err(released.error); }
    SameKeepsCoherence(rt.actor.rocq, rt.sessions, before, rt.actor.process);
    r := Err(refusal);
  }

  datatype Proving = Began(id: Id) | Completed

  /** What stands behind a `Completed` answer: what the validation saw, and when the source was seen in place again. */
  datatype Backing = Backing(vet: Vet, again: Moment)

  /** The record goes on with the build, the refresh, the resolution and the audit of this very declaration. */
  ghost predicate Certified(rocq: Rocq, before: seq<Effect>, after: seq<Effect>, epoch: nat, file: File, name: seq<string>, vet: Vet) {
    && Vetted(rocq, file, name, vet)
    && exists middle :: Calm(before, middle) && after == middle + Evidence(vet.kind, epoch, vet.report)
  }

  /** All of it, for the declaration that was looked at. */
  ghost predicate Founded(script: nat -> Event, rocq: Rocq, era: Era, before: seq<Effect>, after: seq<Effect>, to: nat, epoch: nat,
                         look: Option<Glance>, backing: Backing)
  {
    look.Some? &&
    var target := look.value.target;
    && Certified(rocq, before, after, epoch, target.file, target.name, backing.vet)
    && Revetted(script, rocq, era, look.value.at, to, target, backing.vet, backing.again)
  }

  /** The first look at a declaration that is complete in its source: when, and at what. */
  datatype Glance = Glance(at: Moment, target: Target)

  /** It looks for the declaration asked for, in the bytes its file has held until now. */
  predicate Reads(look: Glance, file: File, name: seq<string>) {
    look.target.file == file && look.target.name == name && Contents(look.at.disk, file) == Some(look.target.source)
  }

  /** The look finds the source changed; every handle of the project was forgotten just before it. */
  predicate Misses(script: nat -> Event, look: Option<Glance>) {
    look.Some? && !Holds(script, look.value.at.clock, look.value.at.disk, look.value.target)
  }

  /**
   * Validate a declaration that is complete in its source. Every handle is forgotten first. When the
   * very first look then fails, the process goes on exporting all of them; in every other case
   * nothing exported is left.
   */
  method ProvePublished(rt: ProjectRuntime, host: Host, s: Session, target: Target, ghost quiet: bool := false)
      returns (r: EngineResult<Proving>, ghost backing: Backing)
    requires rt.Sound() && s in rt.sessions
    requires quiet ==> rt.actor.IsUp() && Contents(host.Disk(), target.file) == Some(target.source)
                       && SmoothLook(host.script, rt.actor.rocq, host.Now(), target.file, target.name)
    modifies rt, rt.actor, host`since, host`request, host`log
    ensures rt.Sound() && Guarded(rt, host, r) && Untouched(rt, host) && OnlyInterrupted(old(host.request), host.request)
    ensures old(host.Clock()) < host.Clock()
    ensures r.Ok? ==> r.value == Completed
                      && Founded(host.script, rt.actor.rocq, old(host.era), old(host.log), host.log, host.Clock(), rt.actor.epoch,
                                 Some(Glance(old(host.Now()), target)), backing)
    ensures var missed := !Holds(host.script, old(host.Clock()), old(host.Disk()), target);
            && (missed ==> r == Err(DeclarationChanged) && rt.actor.epoch == old(rt.actor.epoch)
                           && rt.Loose() == old(rt.Loose()) + AllHandles(old(rt.sessions)))
            && (!missed ==> rt.Loose() == {})
    ensures quiet ==> r == Ok(Completed)
    ensures rt.artifacts == if r.Ok? then Refreshing(host.script(host.Clock() - 1), old(rt.artifacts), target.file) else old(rt.artifacts)
  {
    hide Founded, Revetted, SmoothLook;
    var valid;
    valid, backing := ForgetAndValidate(rt, host, s, target, quiet);
    if valid.Err? { return Err(valid.error), backing; }
    ghost var mid := host.Clock();
    RememberIfRead(rt, host, target.file);
    FoundedNow(host.script, rt.actor.rocq, old(host.era), old(host.Now()), old(host.log), host.log, mid, host.Clock(), rt.actor.epoch, target, backing);
    r := Ok(Completed);
  }

  /** What is remembered after a validation: the fingerprint read, if there is one. */
  function Refreshing(e: Event, artifacts: map<File, Fingerprint>, file: File): map<File, Fingerprint> {
    match e.fingerprint
    case Ok(f) => artifacts[file := f]
    case Err(_) => artifacts
  }

  method RememberIfRead(rt: ProjectRuntime, host: Host, file: File)
    modifies rt`artifacts, host`since, host`request
    ensures OnlyInterrupted(old(host.request), host.request) && host.Clock() == old(host.Clock()) + 1
    ensures rt.artifacts == Refreshing(host.script(old(host.Clock())), old(rt.artifacts), file)
  {
    var fingerprint := ReadFingerprint(host);
    if fingerprint.Ok? {
      rt.artifacts := rt.artifacts[file := fingerprint.value];
    }
  }

  /** Forget every handle, then validate. */
  method ForgetAndValidate(rt: ProjectRuntime, host: Host, s: Session, target: Target, ghost quiet: bool)
      returns (r: EngineResult<()>, ghost backing: Backing)
    requires rt.Sound() && s in rt.sessions
    requires quiet ==> rt.actor.IsUp() && Contents(host.Disk(), target.file) == Some(target.source)
                       && SmoothLook(host.script, rt.actor.rocq, host.Now(), target.file, target.name)
    modifies rt`sessions, rt.actor, host`since, host`request, host`log
    ensures rt.Sound() && Guarded(rt, host, r) && Untouched(rt, host) && OnlyInterrupted(old(host.request), host.request)
    ensures old(host.Clock()) < host.Clock()
    ensures r.Ok? ==> Revetted(host.script, rt.actor.rocq, old(host.era), old(host.Now()), host.Clock(), target, backing.vet, backing.again)
                      && host.log == old(host.log) + Evidence(backing.vet.kind, rt.actor.epoch, backing.vet.report)
    ensures var missed := !Holds(host.script, old(host.Clock()), old(host.Disk()), target);
            && (missed ==> r == Err(DeclarationChanged) && rt.actor.epoch == old(rt.actor.epoch)
                           && rt.Loose() == old(rt.Loose()) + AllHandles(old(rt.sessions)))
            && (!missed ==> rt.Loose() == {})
    ensures quiet ==> r.Ok?
  {
    hide Revetted, SmoothLook;
    ForgettingOrphans(rt.actor.rocq, rt.sessions, rt.actor.process);
    rt.InvalidateProjectStates(s);
    ghost var vet, again;
    r, vet, again := ValidatePublished(rt.actor, host, target, quiet);
    backing := Backing(vet, again);
    NobodyHolds(rt, old(rt.sessions));
    InvalidationKeepsTrees(old(rt.sessions));
  }

  lemma FoundedNow(script: nat -> Event, rocq: Rocq, era: Era, m: Moment, before: seq<Effect>, after: seq<Effect>, mid: nat, to: nat, epoch: nat,
                   target: Target, backing: Backing)
    requires mid <= to && Revetted(script, rocq, era, m, mid, target, backing.vet, backing.again)
    requires after == before + Evidence(backing.vet.kind, epoch, backing.vet.report)
    ensures Founded(script, rocq, era, before, after, to, epoch, Some(Glance(m, target)), backing)
  {
    hide Vetted;
    RevettedLonger(script, rocq, era, m, mid, to, target, backing.vet, backing.again);
    assert Calm(before, before);
  }

  /** What every way of opening a proof promises about the graphs and the record. */
  ghost predicate Opening(was: map<Session, Book>, now: map<Session, Book>, s: Session, file: File, name: seq<string>,
                          r: EngineResult<Proving>, begun: Option<Opened>, committed: bool)
  {
    if r.Ok? && r.value.Began? then
      begun.Some? && Opens(was, now, s, begun.value, r.value.id) && committed && Existing(begun.value.target, file, name)
    else
      SameTrees(was, now)
  }

  /**
   * Open the proof of an existing declaration, or validate one that needs no proof. Exported states
   * lose their owner only when such a validation misses its first look. While the world keeps still
   * an unfinished declaration that owns its range is opened, and one that is complete and rests on
   * stated axioms only is found so.
   */
  method Prove(rt: ProjectRuntime, host: Host, s: Session, file: File, name: seq<string>, ghost quiet: bool := false, ghost ripe: bool := false,
               ghost smooth: bool := false)
      returns (r: EngineResult<Proving>, ghost backing: Backing, ghost begun: Option<Opened>, ghost leak: set<Handle>, ghost look: Option<Glance>)
    requires rt.Sound() && s in rt.sessions
    requires quiet ==> rt.sessions[s].proof.None? && host.Still(5) && Current(host.script, host.Clock(), rt.artifacts, file)
                       && SeesComplete(rt.actor, host.Disk(), file, name)
    requires smooth ==> quiet && SmoothLook(host.script, rt.actor.rocq, Moment(host.Clock() + 5, host.request, host.Disk()), file, name)
    requires ripe ==> Room(rt.sessions[s]) && host.Still(8) && Current(host.script, host.Clock(), rt.artifacts, file)
                      && SeesOpen(rt.actor, host.Disk(), file, name)
    modifies rt, rt.actor, host`since, host`request, host`log
    ensures Guarded(rt, host, r) && Calm(old(host.log), host.log)
    ensures Opening(old(rt.sessions), rt.sessions, s, file, name, r, begun, host.request.Committed?)
    ensures r.Ok? && r.value.Began? ==> FoundIn(rt.actor.rocq, Loaded(rt.actor.process), begun.value.target, false)
    ensures r.Ok? && r.value.Completed? ==>
              Founded(host.script, rt.actor.rocq, old(host.era), old(host.log), host.log, host.Clock(), rt.actor.epoch, look, backing)
    ensures Intact(r) && !rt.actor.silentLoss ==> rt.Loose() <= old(rt.Loose()) + leak
    ensures leak <= rt.Loose() && (leak != {} ==> Misses(host.script, look))
    ensures Misses(host.script, look) ==> r == Err(DeclarationChanged)
    ensures Misses(host.script, look) ==>
              old(rt.actor.epoch) <= rt.actor.epoch && leak == Forsaken(rt.actor.epoch == old(rt.actor.epoch), old(rt.sessions))
    ensures look.Some? ==> host.Passed(look.value.at) && Reads(look.value, file, name)
    ensures quiet ==> look.Some? && look.value.at.clock == old(host.Clock()) + 5
                      && (Misses(host.script, look) ==> rt.actor.epoch == old(rt.actor.epoch))
    ensures smooth ==> r == Ok(Completed)
    ensures old(rt.sessions)[s].proof.Some? ==> r == Err(InvalidRequest) && host.Clock() == old(host.Clock())
    ensures ripe ==> r.Ok? && r.value.Began? && begun.value.target.source == old(host.Disk())[file].text
  {
    hide SmoothLook, Founded, FoundIn, Coherent, Orphans, Opens, Reads, AllHandles, Sensible, Holds;
    backing, begun, leak, look := Backing(NoVet(host), host.Now()), None, {}, None;
    if rt.sessions[s].proof.Some? { return Err(InvalidRequest), backing, begun, leak, look; }
    var built := Reconcile(rt, host, s, file, quiet || ripe);
    if built.Err? { return Err(built.error), backing, begun, leak, look; }
    NothingLeftToForget(old(rt.sessions));
    r, backing, begun, leak, look := OpenSince(rt, host, s, file, name, old(rt.sessions), old(host.log), quiet, ripe, smooth);
  }

  /** What a missed look leaves without an owner: everything held before, unless a boundary came first. */
  ghost function Forsaken(sameEpoch: bool, books: map<Session, Book>): set<Handle> {
    if sameEpoch then AllHandles(books) else {}
  }

  /** `Open`, told about an earlier form of the same graphs and an earlier point of the record. */
  method OpenSince(rt: ProjectRuntime, host: Host, s: Session, file: File, name: seq<string>,
                   ghost was: map<Session, Book>, ghost start: seq<Effect>, ghost quiet: bool := false, ghost ripe: bool := false,
                   ghost smooth: bool := false)
      returns (r: EngineResult<Proving>, ghost backing: Backing, ghost begun: Option<Opened>, ghost leak: set<Handle>, ghost look: Option<Glance>)
    requires rt.Sound() && s in rt.sessions && SameTrees(was, rt.sessions) && Calm(start, host.log)
    requires quiet ==> host.Still(2) && SeesComplete(rt.actor, host.Disk(), file, name)
    requires smooth ==> quiet && SmoothLook(host.script, rt.actor.rocq, Moment(host.Clock() + 2, host.request, host.Disk()), file, name)
    requires ripe ==> Room(rt.sessions[s]) && host.Still(5) && SeesOpen(rt.actor, host.Disk(), file, name)
    modifies rt, rt.actor, host`since, host`request, host`log
    ensures Guarded(rt, host, r) && Calm(start, host.log)
    ensures Opening(was, rt.sessions, s, file, name, r, begun, host.request.Committed?)
    ensures r.Ok? && r.value.Began? ==> FoundIn(rt.actor.rocq, Loaded(rt.actor.process), begun.value.target, false)
    ensures r.Ok? && r.value.Completed? ==>
              Founded(host.script, rt.actor.rocq, old(host.era), start, host.log, host.Clock(), rt.actor.epoch, look, backing)
    ensures Intact(r) && !rt.actor.silentLoss ==> rt.Loose() <= old(rt.Loose()) + leak
    ensures leak <= rt.Loose() && (leak != {} ==> Misses(host.script, look))
    ensures Misses(host.script, look) ==>
              leak == AllHandles(old(rt.sessions)) && r == Err(DeclarationChanged) && rt.actor.epoch == old(rt.actor.epoch)
    ensures look.Some? ==> host.Passed(look.value.at) && Reads(look.value, file, name)
    ensures quiet ==> look.Some? && look.value.at.clock == old(host.Clock()) + 2
    ensures smooth ==> r == Ok(Completed)
    ensures ripe ==> r.Ok? && r.value.Began? && begun.value.target.source == old(host.Disk())[file].text
  {
    hide SmoothLook, Founded, FoundIn;
    ghost var mid := rt.sessions;
    r, backing, begun, leak, look := Open(rt, host, s, file, name, quiet, ripe, smooth);
    if r.Ok? && r.value.Began? {
      OpensBefore(was, mid, rt.sessions, s, begun.value, r.value.id);
    } else {
      SameTreesChain(was, mid, rt.sessions);
    }
    if r == Ok(Completed) {
      FoundedSince(host.script, rt.actor.rocq, old(host.era), start, old(host.log), host.log, host.Clock(), rt.actor.epoch, look, backing);
    }
  }

  lemma FoundedSince(script: nat -> Event, rocq: Rocq, era: Era, start: seq<Effect>, before: seq<Effect>, after: seq<Effect>, to: nat, epoch: nat,
                     look: Option<Glance>, backing: Backing)
    requires Calm(start, before) && Founded(script, rocq, era, before, after, to, epoch, look, backing)
    ensures Founded(script, rocq, era, start, after, to, epoch, look, backing)
  {
    hide Vetted, Revetted;
    var middle :| Calm(before, middle) && after == middle + Evidence(backing.vet.kind, epoch, backing.vet.report);
    assert Calm(start, middle);
  }

  /** The target is the declaration asked for, as its file states it, and it alone owns its range. */
  predicate Existing(t: Target, file: File, name: seq<string>) {
    t.file == file && t.name == name && t.newHeader == None && t.soleOwner
  }

  /** One session gained a proof; the other graphs are as they were. */
  ghost predicate Opens(before: map<Session, Book>, after: map<Session, Book>, s: Session, begun: Opened, id: Id) {
    && before.Keys == after.Keys && s in before
    && BegunBook(before[s], after[s], begun, id)
    && forall t :: t in before && t != s ==> SameTree(before[t], after[t])
  }

  lemma OpensAged(before: map<Session, Book>, after: map<Session, Book>, s: Session, begun: Opened, id: Id)
    requires Opens(before, after, s, begun, id)
    ensures Aged(before, after)
  {
    forall t | t in before && t in after ensures BookAged(before[t], after[t]) {
      if t != s {
        assert SameTree(before[t], after[t]);
      }
    }
  }

  lemma OpensBefore(was: map<Session, Book>, before: map<Session, Book>, after: map<Session, Book>, s: Session, begun: Opened, id: Id)
    requires SameTrees(was, before) && Opens(before, after, s, begun, id)
    ensures Opens(was, after, s, begun, id)
  {
    assert SameTree(was[s], before[s]);
  }

  method Open(rt: ProjectRuntime, host: Host, s: Session, file: File, name: seq<string>, ghost quiet: bool := false, ghost ripe: bool := false,
              ghost smooth: bool := false)
      returns (r: EngineResult<Proving>, ghost backing: Backing, ghost begun: Option<Opened>, ghost leak: set<Handle>, ghost look: Option<Glance>)
    requires rt.Sound() && s in rt.sessions
    requires quiet ==> host.Still(2) && SeesComplete(rt.actor, host.Disk(), file, name)
    requires smooth ==> quiet && SmoothLook(host.script, rt.actor.rocq, Moment(host.Clock() + 2, host.request, host.Disk()), file, name)
    requires ripe ==> Room(rt.sessions[s]) && host.Still(5) && SeesOpen(rt.actor, host.Disk(), file, name)
    modifies rt, rt.actor, host`since, host`request, host`log
    ensures Guarded(rt, host, r) && Calm(old(host.log), host.log)
    ensures Opening(old(rt.sessions), rt.sessions, s, file, name, r, begun, host.request.Committed?)
    ensures r.Ok? && r.value.Began? ==> FoundIn(rt.actor.rocq, Loaded(rt.actor.process), begun.value.target, false)
    ensures r.Ok? && r.value.Completed? ==>
              Founded(host.script, rt.actor.rocq, old(host.era), old(host.log), host.log, host.Clock(), rt.actor.epoch, look, backing)
    ensures Intact(r) && !rt.actor.silentLoss ==> rt.Loose() <= old(rt.Loose()) + leak
    ensures leak <= rt.Loose() && (leak != {} ==> Misses(host.script, look))
    ensures Misses(host.script, look) ==>
              leak == AllHandles(old(rt.sessions)) && r == Err(DeclarationChanged) && rt.actor.epoch == old(rt.actor.epoch)
    ensures look.Some? ==> host.Passed(look.value.at) && Reads(look.value, file, name)
    ensures quiet ==> look.Some? && look.value.at.clock == old(host.Clock()) + 2
    ensures smooth ==> r == Ok(Completed)
    ensures ripe ==> r.Ok? && r.value.Began? && begun.value.target.source == old(host.Disk())[file].text
  {
    hide SmoothLook, Founded, FoundIn, Rooted, Publishable;
    backing, begun, leak, look := Backing(NoVet(host), host.Now()), None, {}, None;
    ghost var before := rt.actor.process;
    var found := SelectDeclaration(rt, host, file, name, quiet, ripe);
    if found.Err? { return Err(found.error), backing, begun, leak, look; }
    if found.value.Published? {
      r, backing, leak, look := LookAtComplete(rt, host, s, found.value.target, smooth);
      return;
    }
    r, begun := BeginExisting(rt, host, s, found.value.begun, before, ripe);
  }

  /** Find the declaration: complete, or opened with its root not owned yet. */
  method SelectDeclaration(rt: ProjectRuntime, host: Host, file: File, name: seq<string>, ghost quiet: bool, ghost ripe: bool)
      returns (r: EngineResult<OpenResult>)
    requires rt.Sound()
    requires quiet ==> host.Still(2) && SeesComplete(rt.actor, host.Disk(), file, name)
    requires ripe ==> host.Still(4) && SeesOpen(rt.actor, host.Disk(), file, name)
    modifies rt.actor`process, rt.actor`epoch, rt.actor`silentLoss, host`since, host`request
    ensures Guarded(rt, host, r) && OnlyInterrupted(old(host.request), host.request)
    ensures !(r.Ok? && r.value.Open?) && Intact(r) && !rt.actor.silentLoss ==> rt.Loose() <= old(rt.Loose())
    ensures r.Ok? && r.value.Published? ==>
              rt.Sound() && Contents(host.Disk(), file) == Some(r.value.target.source) && rt.actor.epoch == old(rt.actor.epoch)
              && r.value.target.file == file && r.value.target.name == name
    ensures r.Ok? && r.value.Open? ==>
              && !rt.actor.silentLoss && Rooted(rt.actor.rocq, rt.sessions, r.value.begun, old(rt.actor.process), rt.actor.process)
              && Publishable(rt.actor.rocq, r.value.begun.target) && Existing(r.value.begun.target, file, name)
              && FoundIn(rt.actor.rocq, Loaded(rt.actor.process), r.value.begun.target, false)
    ensures quiet ==> r.Ok? && r.value.Published? && rt.actor.IsUp() && host.Waited(2)
    ensures ripe ==> r.Ok? && r.value.Open? && host.Waited(4) && r.value.begun.target.source == old(host.Disk())[file].text
  {
    hide Sensible, RowOf;
    ghost var before := rt.actor.process;
    r := OpenDeclaration(rt.actor, host, file, name, quiet, ripe);
    if r.Ok? && r.value.Open? {
      ghost var root := r.value.begun.root.state;
      GrowthKeepsCoherence(rt.actor.rocq, rt.sessions, before, rt.actor.process, map[root := Table(rt.actor.process)[root]]);
    } else if Intact(r) && !rt.actor.silentLoss {
      SameKeepsCoherence(rt.actor.rocq, rt.sessions, before, rt.actor.process);
    }
  }

  /** Validate the declaration just found complete: this is the look. */
  method LookAtComplete(rt: ProjectRuntime, host: Host, s: Session, target: Target, ghost smooth: bool)
      returns (r: EngineResult<Proving>, ghost backing: Backing, ghost leak: set<Handle>, ghost look: Option<Glance>)
    requires rt.Sound() && s in rt.sessions && Contents(host.Disk(), target.file) == Some(target.source)
    requires smooth ==> rt.actor.IsUp() && SmoothLook(host.script, rt.actor.rocq, host.Now(), target.file, target.name)
    modifies rt, rt.actor, host`since, host`request, host`log
    ensures rt.Sound() && Guarded(rt, host, r) && Untouched(rt, host)
    ensures look == Some(Glance(old(host.Now()), target)) && host.Passed(look.value.at) && Reads(look.value, target.file, target.name)
    ensures r.Ok? ==> r.value == Completed
                      && Founded(host.script, rt.actor.rocq, old(host.era), old(host.log), host.log, host.Clock(), rt.actor.epoch, look, backing)
    ensures rt.Loose() <= old(rt.Loose()) + leak && leak <= rt.Loose() && (leak != {} ==> Misses(host.script, look))
    ensures Misses(host.script, look) ==>
              leak == AllHandles(old(rt.sessions)) && r == Err(DeclarationChanged) && rt.actor.epoch == old(rt.actor.epoch)
    ensures smooth ==> r == Ok(Completed)
  {
    hide Founded, SmoothLook;
    host.Arrived();
    look := Some(Glance(host.Now(), target));
    leak := if Misses(host.script, look) then AllHandles(rt.sessions) else {};
    r, backing := ProvePublished(rt, host, s, target, smooth);
  }

  method BeginExisting(rt: ProjectRuntime, host: Host, s: Session, root: Opened, ghost before: Option<Process>, ghost quiet: bool)
      returns (r: EngineResult<Proving>, ghost begun: Option<Opened>)
    requires rt.Valid() && !rt.actor.silentLoss && s in rt.sessions
    requires Rooted(rt.actor.rocq, rt.sessions, root, before, rt.actor.process) && Publishable(rt.actor.rocq, root.target)
    requires quiet ==> host.Still(1) && Room(rt.sessions[s])
    modifies rt`sessions, rt.actor, host`since, host`request
    ensures Upheld(rt, host, r) && SparedSince(rt, before) && begun == Some(root)
    ensures Intact(r) && !rt.actor.silentLoss ==> rt.Loose() <= Orphans(old(rt.sessions), before)
    ensures r.Err? ==> rt.sessions == old(rt.sessions)
    ensures r.Ok? ==> r.value.Began? && Opens(old(rt.sessions), rt.sessions, s, root, r.value.id) && host.request.Committed?
                      && rt.actor.process == old(rt.actor.process)
    ensures quiet ==> r.Ok?
  {
    begun := Some(root);
    GrowthKeepsCoherence(rt.actor.rocq, rt.sessions, before, rt.actor.process,
                         map[root.root.state := Table(rt.actor.process)[root.root.state]]);
    var id := BeginProof(rt, host, s, root, before, quiet);
    if id.Err? { return Err(id.error), begun; }
    r := Ok(Began(id.value));
  }

  /** Open the proof of a new declaration; nothing is written until it is published. */
  method DeclareProof(rt: ProjectRuntime, host: Host, s: Session, file: File, name: seq<string>, kind: Kind, header: Text, ghost quiet: bool := false)
      returns (r: EngineResult<Id>, ghost begun: Option<Opened>)
    requires rt.Sound() && s in rt.sessions
    requires quiet ==> host.Still(14) && Current(host.script, host.Clock(), rt.artifacts, file) && rt.actor.process.None?
                       && Room(rt.sessions[s]) && Sketchable(rt.actor.rocq, host.script(host.Clock() + 4), host.Disk(), file, name, header)
    modifies rt, rt.actor, host`since, host`request, host`log
    ensures Kept(rt, host, r) && Calm(old(host.log), host.log)
    ensures r.Err? ==> Untouched(rt, host)
    ensures old(rt.sessions)[s].proof.Some? ==> r == Err(InvalidRequest) && host.Clock() == old(host.Clock())
    ensures r.Ok? ==> begun.Some? && Opens(old(rt.sessions), rt.sessions, s, begun.value, r.value) && host.request.Committed?
                      && NewTarget(begun.value.target, file, name, kind, header) && AtInsertion(rt.actor.rocq, Loaded(rt.actor.process), begun.value.target)
    ensures quiet ==> r.Ok? && Sketched(rt, host, begun.value, 14) && rt.sessions == old(rt.sessions)[s := rt.sessions[s]]
                      && begun.value.root.state == host.script(old(host.Clock()) + 4).firstId + 1
                      && Cached(rt.artifacts, file) == Some(host.script(old(host.Clock()) + 2).fingerprint.value)
                      && begun.value.target.source == old(host.Disk())[file].text
  {
    hide NewTarget, AtInsertion, Sketchable, Coherent, Orphans;
    begun := None;
    if rt.sessions[s].proof.Some? { return Err(InvalidRequest), begun; }
    var built := Reconcile(rt, host, s, file, quiet);
    if built.Err? { return Err(built.error), begun; }
    ghost var mid := rt.sessions;
    assert SameTree(old(rt.sessions)[s], mid[s]);
    r, begun := OpenNew(rt, host, s, file, name, kind, header, quiet);
    if r.Ok? {
      OpensBefore(old(rt.sessions), mid, rt.sessions, s, begun.value, r.value);
    }
  }

  /** The new declaration goes where the prover puts it in its bytes. */
  predicate AtInsertion(rocq: Rocq, env: Option<Environment>, t: Target) {
    env.Some? && t.header.start == rocq.insertion(env.value, t.source, t.name)
  }

  /** A session without a proof whose counter has not run out. */
  predicate Room(b: Book) {
    b.proof.None? && b.next < MAX_ID
  }

  /** A prover that starts with this event finds room for the declaration, and its header runs. */
  predicate Sketchable(rocq: Rocq, start: Event, disk: map<File, Stored>, file: File, name: seq<string>, header: Text) {
    file in disk &&
    var env, text := start.env, disk[file].text;
    && Sensible(rocq.rows(env, text), text) && Engine.Locate(rocq.rows(env, text), name).None?
    && rocq.insertion(env, text, name) <= |text|
    && SafeStep(rocq, rocq.at(env, file, text, rocq.insertion(env, text, name)), header + PERIOD)
  }

  /** Only the root of the begun proof is exported; `n` events went by and changed no file and no epoch. */
  twostate predicate Sketched(rt: ProjectRuntime, host: Host, new begun: Opened, n: nat)
    reads rt, rt.actor, host
  {
    && rt.Sound() && rt.actor.epoch == old(rt.actor.epoch)
    && rt.actor.process.Some? && rt.actor.process.value.ready && rt.actor.process.value.exported.Keys == {begun.root.state}
    && host.Clock() == old(host.Clock()) + n && host.Disk() == old(host.Disk()) && host.request.Committed?
  }

  method OpenNew(rt: ProjectRuntime, host: Host, s: Session, file: File, name: seq<string>, kind: Kind, header: Text, ghost quiet: bool := false)
      returns (r: EngineResult<Id>, ghost begun: Option<Opened>)
    requires rt.Sound() && s in rt.sessions
    requires quiet ==> host.Still(11) && rt.actor.process.None? && Room(rt.sessions[s])
                       && Sketchable(rt.actor.rocq, host.script(host.Clock() + 1), host.Disk(), file, name, header)
    modifies rt`sessions, rt.actor, host`since, host`request
    ensures Kept(rt, host, r)
    ensures r.Err? ==> rt.sessions == old(rt.sessions)
    ensures r.Ok? ==> begun.Some? && Opens(old(rt.sessions), rt.sessions, s, begun.value, r.value) && host.request.Committed?
                      && NewTarget(begun.value.target, file, name, kind, header) && AtInsertion(rt.actor.rocq, Loaded(rt.actor.process), begun.value.target)
    ensures quiet ==> r.Ok? && Sketched(rt, host, begun.value, 11) && rt.sessions == old(rt.sessions)[s := rt.sessions[s]]
                      && begun.value.root.state == host.script(old(host.Clock()) + 1).firstId + 1
                      && begun.value.target.source == old(host.Disk())[file].text
  {
    begun := None;
    ghost var before := rt.actor.process;
    var found := Declare(rt.actor, host, file, name, kind, header, quiet);
    if found.Err? {
      if Intact(found) && !rt.actor.silentLoss {
        SameKeepsCoherence(rt.actor.rocq, rt.sessions, before, rt.actor.process);
      }
      return Err(found.error), begun;
    }
    begun := Some(found.value);
    GrowthKeepsCoherence(rt.actor.rocq, rt.sessions, before, rt.actor.process,
                         map[found.value.root.state := Table(rt.actor.process)[found.value.root.state]]);
    r := BeginProof(rt, host, s, found.value, before, quiet);
  }

  // ---------------------------------------------------------------- leaving a proof

  /** Every handle a proof holds. */
  method CollectHandles(b: Book) returns (states: seq<Handle>)
    ensures Elements(states) == HandlesOf(b)
  {
    states := [];
    if b.proof.None? { return; }
    var m := b.proof.value.checkpoints;
    var todo := m.Keys;
    while todo != {}
      invariant todo <= m.Keys
      invariant forall h :: h in states <==> exists c :: c in m && c !in todo && m[c].petState == Some(h)
      decreases |todo|
    {
      var c :| c in todo;
      states := states + Displaced(m[c].petState);
      todo := todo - {c};
    }
  }

  /**
   * Release and clear the session's proof. A prover found lost counts as released; the caller is
   * told, because other sessions still hold handles into it.
   */
  method RetireProof(rt: ProjectRuntime, host: Host, s: Session) returns (r: EngineResult<bool>)
    requires rt.Sound() && s in rt.sessions
    modifies rt`sessions, rt.actor`process, rt.actor`epoch, host`since, host`request
    ensures rt.Valid() && !rt.actor.silentLoss && OnlyInterrupted(old(host.request), host.request) && Onward(rt, host)
    ensures r.Err? ==> rt.sessions == old(rt.sessions) && r.error.RequestCancelled? && host.request.IsCancelled()
    ensures r.Ok? ==> rt.sessions == Cleared(old(rt.sessions), s)
    ensures r == Ok(false) ==> rt.Sound() && rt.Loose() == old(rt.Loose())
    ensures r == Ok(true) ==> rt.actor.process == None
  {
    assert WellFormed(rt.sessions[s]);
    if rt.sessions[s].proof.None? {
      assert Cleared(rt.sessions, s) == rt.sessions;
      return Ok(false);
    }
    var states := CollectHandles(rt.sessions[s]);
    ghost var books, before := rt.sessions, rt.actor.process;
    var released := rt.actor.Release(host, states);
    if released.Err? && !released.error.IsTransportLoss() {
      RetireSpares(books, before, rt.actor.process, s);
      return Err(ReleaseError(released.error));
    }
    Retired(rt.actor.rocq, books, before, rt.actor.process, s, released.Ok?);
    RetireSpares(books, before, rt.actor.process, s);
    rt.sessions := Cleared(rt.sessions, s);
    r := Ok(released.Err?);
  }

  /** A proof whose handles were released and forgotten. */
  lemma Retired(rocq: Rocq, books: map<Session, Book>, p: Option<Process>, q: Option<Process>, s: Session, released: bool)
    requires Coherent(rocq, books, p) && AllPublishable(rocq, books) && s in books
    requires released && p.Some? ==> q == Some(p.value.(exported := p.value.exported - HandlesOf(books[s])))
    requires released && p.None? ==> q == None
    ensures AllWellFormed(Cleared(books, s)) && AllPublishable(rocq, Cleared(books, s))
    ensures released ==> Coherent(rocq, Cleared(books, s), q) && Orphans(Cleared(books, s), q) == Orphans(books, p)
  {
    assert WellFormed(books[s]);
    if p.None? {
      NothingToRelease(rocq, books, p, s);
      ClearingOrphans(rocq, books, p, s);
      ShrinkKeepsCoherence(rocq, books, p, s, books[s].Clear());
    } else if released {
      RetireKeepsCoherence(rocq, books, p, q, s);
    }
  }

  lemma RetireSpares(books: map<Session, Book>, p: Option<Process>, q: Option<Process>, s: Session)
    requires s in books
    ensures Table(p).Keys - HandlesOf(books[s]) <= Table(q).Keys ==>
              Orphans(books, p) <= Orphans(Cleared(books, s), q) && Orphans(books, p) <= Orphans(books, q)
  {
    forall h: Handle ensures Held(Cleared(books, s), h) ==> Held(books, h) {
      if Held(Cleared(books, s), h) {
        var t, c :| HandleAt(Cleared(books, s), t, c) == Some(h);
        assert HandleAt(books, t, c) == Some(h);
      }
    }
    forall h: Handle | h in HandlesOf(books[s]) ensures Held(books, h) {
      HandlesAreHeld(books, s, h);
    }
  }

  lemma NothingToRelease(rocq: Rocq, books: map<Session, Book>, p: Option<Process>, s: Session)
    requires Coherent(rocq, books, p) && s in books && p.None?
    ensures HandlesOf(books[s]) == {}
  {
    forall h: Handle | h in HandlesOf(books[s]) ensures false {
      HandlesAreHeld(books, s, h);
      HeldIsExported(rocq, books, p, h);
    }
  }

  /** Give up the selected proof, which must be the one named. */
  method Abandon(rt: ProjectRuntime, host: Host, s: Session, file: File, name: seq<string>) returns (r: EngineResult<()>)
    requires rt.Sound() && s in rt.sessions
    modifies rt, rt.actor, host`since, host`request
    ensures Kept(rt, host, r)
    ensures r.Err? ==> rt.sessions == old(rt.sessions)
    ensures r.Ok? <==> host.request.Committed? && old(rt.sessions)[s].proof.Some?
                       && old(rt.sessions)[s].proof.value.target.file == file && old(rt.sessions)[s].proof.value.target.name == name
    ensures r.Ok? ==> SameTrees(Cleared(old(rt.sessions), s), rt.sessions)
  {
    if rt.sessions[s].proof.None? { return Err(InvalidRequest); }
    var target := rt.sessions[s].proof.value.target;
    if target.file != file || target.name != name { return Err(NotFound); }
    var won := host.Commit();
    if !won { return Err(RequestCancelled); }
    var lost := RetireProof(rt, host, s);
    if lost == Ok(true) {
      rt.InvalidateProjectStates(s);
    }
    r := match lost
         case Ok(_) => Ok(())
         case Err(k) => Err(k);
  }

  // ---------------------------------------------------------------- moving

  datatype Destination = ToCheckpoint(id: nat) | Back(steps: nat)

  /** The checkpoint a rewind names, before anything is done about it. */
  method Locate(b: Book, to: Destination) returns (r: EngineResult<Id>)
    requires WellFormed(b)
    ensures to.Back? ==> (r.Ok? <==> b.StepsBack(to.steps).Ok?) && (r.Ok? ==> r.value == b.StepsBack(to.steps).value)
    ensures to.ToCheckpoint? ==> (r.Ok? <==> to.id > 0) && (r.Ok? ==> r.value == to.id)
    ensures r.Err? ==> r.error == InvalidRequest
  {
    match to
    case ToCheckpoint(id) => r := if id > 0 then Ok(id) else Err(InvalidRequest);
    case Back(steps) =>
      var back := WalkBack(b, steps);
      r := match back
           case Ok(id) => Ok(id)
           case Err(e) => Err(InvalidRequest);
  }

  /** Select an earlier or sibling checkpoint, made live first: selection is the only thing that moves. */
  method Rewind(rt: ProjectRuntime, host: Host, s: Session, to: Destination) returns (r: EngineResult<Id>)
    requires rt.Sound() && s in rt.sessions
    modifies rt, rt.actor, host`since, host`request, host`log
    ensures Kept(rt, host, r) && Calm(old(host.log), host.log)
    ensures r.Err? ==> SameTrees(old(rt.sessions), rt.sessions)
    ensures r.Ok? ==> host.request.Committed? && HandleAt(rt.sessions, s, r.value).Some?
    ensures r.Ok? ==> Moved(old(rt.sessions), rt.sessions, s, r.value)
    ensures r.Ok? && to.Back? ==> WellFormed(old(rt.sessions)[s]) && old(rt.sessions)[s].StepsBack(to.steps) == Ok(r.value)
    ensures r.Ok? && to.ToCheckpoint? ==> r.value == to.id
  {
    assert WellFormed(rt.sessions[s]);
    var target := Locate(rt.sessions[s], to);
    if target.Err? { return Err(target.error); }
    r := GoTo(rt, host, s, target.value);
  }

  /** Check the source and the build, then move. */
  method GoTo(rt: ProjectRuntime, host: Host, s: Session, id: Id) returns (r: EngineResult<Id>)
    requires rt.Sound() && s in rt.sessions
    modifies rt, rt.actor, host`since, host`request, host`log
    ensures Kept(rt, host, r) && Calm(old(host.log), host.log)
    ensures r.Err? ==> SameTrees(old(rt.sessions), rt.sessions)
    ensures r.Ok? ==> r.value == id && host.request.Committed? && HandleAt(rt.sessions, s, id).Some?
    ensures r.Ok? ==> Moved(old(rt.sessions), rt.sessions, s, id)
  {
    if rt.sessions[s].proof.None? { return Err(InvalidRequest); }
    var proof := rt.sessions[s].proof.value;
    var admitted := AdmitSource(rt, host, s, proof.target);
    if admitted.Err? { return Err(admitted.error); }
    r := MoveSince(rt, host, s, id, old(rt.sessions));
  }

  /** `MoveTo`, told about an earlier form of the same graphs. */
  method MoveSince(rt: ProjectRuntime, host: Host, s: Session, id: Id, ghost was: map<Session, Book>) returns (r: EngineResult<Id>)
    requires rt.Sound() && s in rt.sessions && SameTrees(was, rt.sessions)
    modifies rt`sessions, rt.actor, host`since, host`request
    ensures Kept(rt, host, r)
    ensures r.Err? ==> SameTrees(was, rt.sessions)
    ensures r.Ok? ==> r.value == id && host.request.Committed? && HandleAt(rt.sessions, s, id).Some?
    ensures r.Ok? ==> Moved(was, rt.sessions, s, id)
  {
    ghost var mid := rt.sessions;
    r := MoveTo(rt, host, s, id);
    if r.Err? {
      SameTreesChain(was, mid, rt.sessions);
    } else {
      MovedBefore(was, mid, rt.sessions, s, id);
    }
  }

  /** One session selected another of its nodes; all graphs are otherwise as they were. */
  ghost predicate Moved(before: map<Session, Book>, after: map<Session, Book>, s: Session, id: Id) {
    && before.Keys == after.Keys && s in before
    && before[s].Select(id).1.Ok? && SameTree(before[s].Select(id).0, after[s])
    && forall t :: t in before && t != s ==> SameTree(before[t], after[t])
  }

  lemma MovedSelects(before: map<Session, Book>, after: map<Session, Book>, s: Session, id: Id)
    requires Moved(before, after, s, id)
    ensures after[s].proof.Some? && after[s].proof.value.current == id
  {
  }

  lemma MovedAged(before: map<Session, Book>, after: map<Session, Book>, s: Session, id: Id)
    requires Moved(before, after, s, id)
    ensures Aged(before, after)
  {
    forall t | t in before && t in after ensures BookAged(before[t], after[t]) {
      if t != s {
        assert SameTree(before[t], after[t]);
      }
    }
  }

  /** A cleared proof takes no identifier back. */
  lemma ClearedAged(before: map<Session, Book>, after: map<Session, Book>, s: Session)
    requires s in before && SameTrees(Cleared(before, s), after)
    ensures Aged(before, after)
  {
    forall t | t in before && t in after ensures BookAged(before[t], after[t]) {
      assert SameTree(Cleared(before, s)[t], after[t]);
    }
  }

  lemma MovedBefore(was: map<Session, Book>, before: map<Session, Book>, after: map<Session, Book>, s: Session, id: Id)
    requires SameTrees(was, before) && Moved(before, after, s, id)
    ensures Moved(was, after, s, id)
  {
    assert SameTree(was[s], before[s]);
  }

  method MoveTo(rt: ProjectRuntime, host: Host, s: Session, id: Id) returns (r: EngineResult<Id>)
    requires rt.Sound() && s in rt.sessions
    modifies rt`sessions, rt.actor, host`since, host`request
    ensures Kept(rt, host, r)
    ensures r.Err? ==> SameTrees(old(rt.sessions), rt.sessions)
    ensures r.Ok? ==> r.value == id && host.request.Committed? && HandleAt(rt.sessions, s, id).Some?
    ensures r.Ok? ==> Moved(old(rt.sessions), rt.sessions, s, id)
  {
    var live := MakeLive(rt, host, s, id);
    if live.Err? { return Err(live.error); }
    ghost var mid := rt.sessions;
    var won := host.Commit();
    if !won { return Err(RequestCancelled); }
    SelectIn(rt, s, id);
    MovedBefore(old(rt.sessions), mid, rt.sessions, s, id);
    r := Ok(id);
  }

  method MakeLive(rt: ProjectRuntime, host: Host, s: Session, id: Id) returns (r: EngineResult<()>)
    requires rt.Sound() && s in rt.sessions
    modifies rt`sessions, rt.actor, host`since, host`request
    ensures Kept(rt, host, r) && OnlyInterrupted(old(host.request), host.request)
    ensures SameTrees(old(rt.sessions), rt.sessions)
    ensures r.Ok? ==> rt.Sound() && HandleAt(rt.sessions, s, id).Some?
  {
    var node := rt.sessions[s].Lookup(id);
    if node.Err? { return Err(BookErrorKind(node.error)); }
    if node.value.petState.None? {
      var replayed := ReplayCheckpoint(rt, host, s, id);
      if replayed.Err? { return Err(replayed.error); }
    }
    r := Ok(());
  }

  method SelectIn(rt: ProjectRuntime, s: Session, id: Id)
    requires rt.Sound() && s in rt.sessions && HandleAt(rt.sessions, s, id).Some?
    modifies rt`sessions
    ensures rt.Sound() && rt.Loose() == old(rt.Loose())
    ensures HandleAt(rt.sessions, s, id).Some? && Moved(old(rt.sessions), rt.sessions, s, id)
    ensures rt.sessions == old(rt.sessions)[s := old(rt.sessions)[s].Select(id).0]
  {
    var (after, _) := rt.sessions[s].Select(id);
    assert WellFormed(rt.sessions[s]);
    OneCommandKeepsTheTree(rt.sessions[s], DoSelect(id));
    ShrinkKeepsCoherence(rt.actor.rocq, rt.sessions, rt.actor.process, s, after);
    SelectionHolds(rt.sessions, s, id);
    rt.sessions := rt.sessions[s := after];
  }

  lemma SelectionHolds(books: map<Session, Book>, s: Session, id: Id)
    requires s in books
    ensures forall h :: Held(books, h) <==> Held(books[s := books[s].Select(id).0], h)
  {
    var now := books[s := books[s].Select(id).0];
    forall h: Handle | Held(books, h) ensures Held(now, h) {
      var t, c :| HandleAt(books, t, c) == Some(h);
      assert HandleAt(now, t, c) == Some(h);
    }
    forall h: Handle | Held(now, h) ensures Held(books, h) {
      var t, c :| HandleAt(now, t, c) == Some(h);
      assert HandleAt(books, t, c) == Some(h);
    }
  }

  // ---------------------------------------------------------------- looking

  /** One look at a document through the prover. */
  method Look(rt: ProjectRuntime, host: Host) returns (r: EngineResult<()>)
    requires rt.Sound()
    modifies rt.actor`process, rt.actor`epoch, host`since, host`request
    ensures Kept(rt, host, r) && OnlyInterrupted(old(host.request), host.request)
    ensures r.Ok? ==> old(host.Clock()) < host.Clock()
  {
    var call := rt.actor.CallInWorkspace(host);
    r := match call
         case Ok(_) => Ok(())
         case Err(e) => Err(Project(e, Declaration));
    if Intact(r) {
      SameKeepsCoherence(rt.actor.rocq, rt.sessions, old(rt.actor.process), rt.actor.process);
    }
  }

  /** Build a set of files, then look at each: what `list_decls` and `locate_symbol` do. */
  method Survey(rt: ProjectRuntime, host: Host, s: Session, files: seq<File>)
      returns (r: EngineResult<()>, ghost trace: seq<Rebuilt>, ending: Ending)
    requires rt.Sound() && s in rt.sessions
    modifies rt, rt.actor, host`since, host`request, host`log
    ensures Kept(rt, host, r) && Untouched(rt, host) && OnlyInterrupted(old(host.request), host.request)
    ensures Told(host.script, old(host.Now()), files, old(rt.artifacts), trace, ending) && (r.Ok? ==> ending.Settled?)
    ensures r.Ok? ==> old(host.Clock()) + 3 * |trace| + |files| <= host.Clock()
    ensures ending.Unread? ==> r.Err? && !InvalidatesEpoch(r.error) && rt.actor.epoch == old(rt.actor.epoch)
                               && rt.sessions == old(rt.sessions) && rt.actor.process == old(rt.actor.process)
                               && rt.artifacts == Record(old(rt.artifacts), trace)
  {
    r, trace, ending := ReconcileArtifacts(rt, host, s, files);
    if r.Err? { return; }
    r := LookAtEach(rt, host, files);
  }

  method LookAtEach(rt: ProjectRuntime, host: Host, files: seq<File>) returns (r: EngineResult<()>)
    requires rt.Sound()
    modifies rt.actor`process, rt.actor`epoch, host`since, host`request
    ensures Kept(rt, host, r) && OnlyInterrupted(old(host.request), host.request)
    ensures r.Ok? ==> old(host.Clock()) + |files| <= host.Clock()
  {
    for i := 0 to |files|
      invariant old(host.Clock()) + i <= host.Clock()
      invariant rt.Sound() && rt.Loose() <= old(rt.Loose()) && Onward(rt, host) && OnlyInterrupted(old(host.request), host.request)
    {
      r := Look(rt, host);
      if r.Err? { return; }
    }
    r := Ok(());
  }

  /** The state is what replaying the session's selected checkpoint gives in this environment. */
  ghost predicate IsSelected(rocq: Rocq, env: Option<Environment>, books: map<Session, Book>, s: Session, asked: RocqState) {
    && env.Some? && s in books && books[s].proof.Some? && Tree(books[s].proof.value)
    && rocq.Replay(env.value, books[s].proof.value.target, Fragments(books[s].proof.value, books[s].proof.value.current)) == Some(asked)
  }

  /** The state is the one just after the named declaration, as its file reads at that moment. */
  predicate IsPlaced(rocq: Rocq, env: Option<Environment>, at: Moment, file: File, name: seq<string>, asked: RocqState) {
    env.Some? && JustAfter(rocq, env.value, at.disk, file, name, asked)
  }

  /** Ask in the selected checkpoint. `was` is any earlier form of the books. */
  method AskHere(rt: ProjectRuntime, host: Host, s: Session, command: Text, ghost was: map<Session, Book>)
      returns (r: EngineResult<()>, ghost asked: RocqState)
    requires rt.Sound() && s in rt.sessions && AllWellFormed(was) && SameTrees(was, rt.sessions)
    modifies rt`sessions, rt.actor, host`since, host`request
    ensures Kept(rt, host, r) && OnlyInterrupted(old(host.request), host.request)
    ensures SameTrees(was, rt.sessions)
    ensures r.Ok? ==> IsSelected(rt.actor.rocq, Loaded(rt.actor.process), was, s, asked) && rt.actor.rocq.step(asked, command).Accepted?
  {
    asked := RocqState(0);
    var current := EnsureCurrentState(rt, host, s);
    SameTreesChain(was, old(rt.sessions), rt.sessions);
    if current.Err? { return Err(current.error), asked; }
    SameCurrent(was, rt.sessions, s);
    BaseMeansReplay(rt.actor.rocq, was, rt.sessions, rt.actor.process, s, current.value.0);
    asked := Table(rt.actor.process)[current.value.1];
    r := AskIn(rt, host, rt.sessions[s].proof.value.target, current.value.1, command);
  }

  method AskIn(rt: ProjectRuntime, host: Host, target: Target, state: Handle, command: Text) returns (r: EngineResult<()>)
    requires rt.Sound()
    modifies rt.actor, host`since, host`request
    ensures Kept(rt, host, r) && OnlyInterrupted(old(host.request), host.request)
    ensures r.Ok? ==> Same(old(rt.actor.process), rt.actor.process)
    ensures r.Ok? ==> state in Table(old(rt.actor.process)) && rt.actor.rocq.step(Table(old(rt.actor.process))[state], command).Accepted?
  {
    r := QueryState(rt.actor, host, target, state, command);
    if Intact(r) && !rt.actor.silentLoss {
      SameKeepsCoherence(rt.actor.rocq, rt.sessions, old(rt.actor.process), rt.actor.process);
    }
  }

  /** Ask just after a declaration, in a state of its own. */
  method AskAfter(rt: ProjectRuntime, host: Host, file: File, name: seq<string>, command: Text, ghost ambushed: bool := false)
      returns (r: EngineResult<()>, ghost asked: RocqState, ghost at: Moment)
    requires rt.Sound()
    requires ambushed ==> Ambush(host.script, host.Clock(), 3, host.request) && SeesComplete(rt.actor, host.Disk(), file, name)
    modifies rt.actor, host`since, host`request
    ensures Kept(rt, host, r) && OnlyInterrupted(old(host.request), host.request)
    ensures r.Ok? ==> host.Reached(at) && IsPlaced(rt.actor.rocq, Loaded(rt.actor.process), at, file, name, asked) && rt.actor.rocq.step(asked, command).Accepted?
    ensures ambushed ==> rt.actor.silentLoss && Swallowed(rt.actor, r)
  {
    r, asked, at := QueryAt(rt.actor, host, file, name, command, ambushed);
    if Intact(r) && !rt.actor.silentLoss {
      SameKeepsCoherence(rt.actor.rocq, rt.sessions, old(rt.actor.process), rt.actor.process);
    }
  }

  /** The session's open proof is of this declaration. */
  predicate Mine(b: Book, file: File, name: seq<string>) {
    b.proof.Some? && b.proof.value.target.file == file && b.proof.value.target.name == name
  }

  /** A query about one declaration: in the selected proof when it is that declaration's, else in its own place. */
  method AskAbout(rt: ProjectRuntime, host: Host, s: Session, file: File, name: seq<string>, command: Text)
      returns (r: EngineResult<()>, ghost asked: RocqState, ghost at: Moment)
    requires rt.Sound() && s in rt.sessions
    modifies rt, rt.actor, host`since, host`request, host`log
    ensures Kept(rt, host, r) && Untouched(rt, host) && OnlyInterrupted(old(host.request), host.request)
    ensures r.Ok? ==> rt.actor.rocq.step(asked, command).Accepted?
                      && if Mine(old(rt.sessions)[s], file, name) then IsSelected(rt.actor.rocq, Loaded(rt.actor.process), old(rt.sessions), s, asked)
                         else host.Reached(at) && IsPlaced(rt.actor.rocq, Loaded(rt.actor.process), at, file, name, asked)
  {
    asked, at := RocqState(0), host.Now();
    r := Reconcile(rt, host, s, file);
    if r.Err? { return; }
    assert SameTree(old(rt.sessions)[s], rt.sessions[s]);
    if Mine(rt.sessions[s], file, name) {
      r, asked := AskHere(rt, host, s, command, old(rt.sessions));
    } else {
      r, asked, at := AskAfter(rt, host, file, name, command);
    }
  }

  /** A query placed explicitly after a declaration; a selected proof never shadows it. */
  method AskPlaced(rt: ProjectRuntime, host: Host, s: Session, file: File, name: seq<string>, command: Text, ghost ambushed: bool := false)
      returns (r: EngineResult<()>, ghost asked: RocqState, ghost at: Moment)
    requires rt.Sound() && s in rt.sessions
    requires ambushed ==> host.Still(3) && Current(host.script, host.Clock(), rt.artifacts, file)
                          && Ambush(host.script, host.Clock() + 3, 3, host.request) && SeesComplete(rt.actor, host.Disk(), file, name)
    modifies rt, rt.actor, host`since, host`request, host`log
    ensures Kept(rt, host, r) && Untouched(rt, host) && OnlyInterrupted(old(host.request), host.request)
    ensures r.Ok? ==> host.Reached(at) && IsPlaced(rt.actor.rocq, Loaded(rt.actor.process), at, file, name, asked) && rt.actor.rocq.step(asked, command).Accepted?
    ensures ambushed ==> rt.actor.silentLoss && Swallowed(rt.actor, r) && rt.sessions == old(rt.sessions)
  {
    asked, at := RocqState(0), host.Now();
    r := Reconcile(rt, host, s, file, ambushed);
    if r.Err? { return; }
    r, asked, at := AskAfter(rt, host, file, name, command, ambushed);
  }

  /** A query in the selected proof. */
  method AskSelected(rt: ProjectRuntime, host: Host, s: Session, command: Text) returns (r: EngineResult<()>, ghost asked: RocqState)
    requires rt.Sound() && s in rt.sessions
    modifies rt, rt.actor, host`since, host`request, host`log
    ensures Kept(rt, host, r) && Untouched(rt, host) && OnlyInterrupted(old(host.request), host.request)
    ensures r.Ok? ==> IsSelected(rt.actor.rocq, Loaded(rt.actor.process), old(rt.sessions), s, asked) && rt.actor.rocq.step(asked, command).Accepted?
  {
    asked := RocqState(0);
    if rt.sessions[s].proof.None? { return Err(InvalidRequest), asked; }
    r := Reconcile(rt, host, s, rt.sessions[s].proof.value.target.file);
    if r.Err? { return; }
    r, asked := AskHere(rt, host, s, command, old(rt.sessions));
  }
}
