/** Runs of the program's own tools, from a new project on, in which a promise made elsewhere does not hold. */
module Witnesses {
  import opened Outcomes
  import opened Sources
  import opened Requests
  import opened Checkpoints
  import opened Declarations
  import opened Prover
  import opened Coherence
  import opened Hosts
  import opened Pet
  import opened Engine
  import opened Splicing
  import opened Writeback
  import opened Runtime
  import opened Attempts
  import opened Publishing
  import opened Checking
  import opened Tools
  import opened Dispatching
  import opened Sessions

  const BLANK: View := View([], None)
  const HEADER: Text := [120]

  /** A prover that counts sentences: a proof begins at one and is finished at two, and the next ends it. */
  function Counting(): Rocq {
    Rocq((env, text) => if text == [] then [] else [Row(["x"], Some(Theorem), false, [], Range(0, 1), Range(0, 1), true)],
         (env, text, name) => 0,
         (env, file, text, offset) => RocqState(0),
         (s: RocqState, fragment: Text) => Accepted(RocqState(s.code + 1)),
         (s: RocqState) => s.code >= 2,
         (s: RocqState) => s.code == 1 || s.code == 2,
         s => false,
         s => BLANK,
         (s, name) => Report(false, []))
  }

  /** Nothing happens, and every file has the same fingerprint. */
  function Peace(mark: Fingerprint): Event {
    Event(Quiet, None, Answered, false, 0, 7, Succeeded, Persisted, true, true, Ok(mark), Ok(false))
  }

  /** A world with surprises at some events and peace at all others. */
  function World(mark: Fingerprint, surprises: map<nat, Event>): nat -> Event {
    (t: nat) => if t in surprises then surprises[t] else Peace(mark)
  }

  /** The prover answers and nobody interrupts, whatever else happens. */
  predicate Mild(e: Event) {
    e.fault.Answered? && e.signal.Quiet? && !e.lostOnDrop
  }

  lemma MildWorld(mark: Fingerprint, surprises: map<nat, Event>)
    requires forall t :: t in surprises ==> Mild(surprises[t])
    ensures NoSwallowedLoss(World(mark, surprises))
  {
    var script := World(mark, surprises);
    forall t: nat ensures Orderly(script, t) {
      MildOrderly(script, t);
    }
  }

  lemma MildOrderly(script: nat -> Event, t: nat)
    requires Mild(script(t)) && Mild(script(t + 1))
    ensures Orderly(script, t)
  {
  }

  /** A new declaration, to be inserted in front of everything. */
  function Inserted(file: File, source: Text): Target {
    Target(["y"], Theorem, HEADER, file, source, Range(0, 0), Range(0, 0), true, Some(HEADER))
  }

  function RootOnly(file: File, source: Text): Book {
    Book(1, Some(ProofSession(Inserted(file, source), 1, map[1 := Checkpoint(None, Some(8), None, false, BLANK)])))
  }

  /** Session 0 has declared a proof and holds its root, the only exported state; session 1 holds nothing. */
  ghost predicate Declared(rt: ProjectRuntime, host: Host, file: File, source: Text, mark: Fingerprint)
    reads rt, rt.actor, host
  {
    && rt.Sound() && rt.actor.rocq == Counting() && rt.actor.epoch == 0 && Cached(rt.artifacts, file) == Some(mark)
    && rt.sessions == map[0 := RootOnly(file, source), 1 := Book(0, None)]
    && rt.actor.process.Some? && rt.actor.process.value.ready && rt.actor.process.value.exported == map[8 := RocqState(1)]
    && host.Clock() == 16 && host.request.Active?
  }

  /** A new project, two connections, and one declaration: 16 events. */
  method SetOut(mark: Fingerprint, surprises: map<nat, Event>, disk: map<File, Stored>, file: File) returns (rt: ProjectRuntime, host: Host)
    requires file in disk && forall t :: t in surprises ==> t >= 16
    ensures fresh(rt) && fresh(rt.actor) && fresh(host) && host.script == World(mark, surprises)
    ensures Declared(rt, host, file, disk[file].text, mark) && host.Disk() == disk
  {
    host := new Host(World(mark, surprises), disk);
    rt := Joined(host, mark);
    DeclareIn(rt, host, 0, file, mark);
    host.Admit();
  }

  /** Session `s` declares the proof in a project without a process: its root is state 8. */
  method DeclareIn(rt: ProjectRuntime, host: Host, s: Session, file: File, ghost mark: Fingerprint)
    requires rt.Sound() && rt.actor.rocq == Counting() && rt.actor.process == None && rt.artifacts == map[]
    requires s in rt.sessions && rt.sessions[s] == Book(0, None)
    requires file in host.Disk() && host.request.Active? && forall t: nat :: host.Clock() <= t < host.Clock() + 14 ==> host.script(t) == Peace(mark)
    modifies rt, rt.actor, host`since, host`request, host`log
    ensures rt.Sound() && rt.sessions == old(rt.sessions)[s := RootOnly(file, old(host.Disk())[file].text)]
    ensures rt.actor.epoch == old(rt.actor.epoch) && Cached(rt.artifacts, file) == Some(mark)
    ensures rt.actor.process.Some? && rt.actor.process.value.ready && rt.actor.process.value.exported == map[8 := RocqState(1)]
    ensures host.Clock() == old(host.Clock()) + 14 && host.Disk() == old(host.Disk()) && host.request.Committed?
  {
    Sketch(file, host.Disk(), mark);
    var id; ghost var begun;
    id, begun := DeclareProof(rt, host, s, file, ["y"], Theorem, HEADER, true);
    RootStands(rt, s, begun.value, id.value, file, old(host.Disk())[file].text);
  }

  /** Two connections attach to a new project. */
  method Joined(host: Host, mark: Fingerprint) returns (rt: ProjectRuntime)
    requires host.Clock() == 0 && host.request.Active? && host.script(0) == host.script(1) == Peace(mark)
    modifies host`since, host`request
    ensures fresh(rt) && fresh(rt.actor) && rt.Sound() && rt.actor.rocq == Counting() && rt.actor.epoch == 0 && rt.artifacts == map[]
    ensures rt.actor.process == None && rt.sessions == map[0 := Book(0, None), 1 := Book(0, None)]
    ensures host.Clock() == 2 && host.request.Active? && host.Disk() == old(host.Disk())
  {
    rt := new ProjectRuntime(Counting());
    var first := InstallStartView(rt, host, 0, Book(0, None));
    var second := InstallStartView(rt, host, 1, Book(0, None));
    assert rt.sessions == map[0 := Book(0, None), 1 := Book(0, None)];
  }

  lemma Sketch(file: File, disk: map<File, Stored>, mark: Fingerprint)
    requires file in disk
    ensures Sketchable(Counting(), Peace(mark), disk, file, ["y"], HEADER)
  {
  }

  /** The begun book is the one expected, whatever the contract of the tool leaves open. */
  lemma RootStands(rt: ProjectRuntime, s: Session, begun: Opened, id: Id, file: File, source: Text)
    requires rt.Sound() && rt.actor.rocq == Counting() && s in rt.sessions && BegunBook(Book(0, None), rt.sessions[s], begun, id)
    requires NewTarget(begun.target, file, ["y"], Theorem, HEADER) && begun.target.source == source && begun.root.state == 8
    requires AtInsertion(rt.actor.rocq, Loaded(rt.actor.process), begun.target) && rt.actor.process.value.exported.Keys == {8}
    ensures rt.sessions[s] == RootOnly(file, source) && rt.actor.process.value.exported == map[8 := RocqState(1)]
  {
    var proof := rt.sessions[s].proof.value;
    assert proof.checkpoints[1].petState == Some(8);
    assert HandleAt(rt.sessions, s, 1) == Some(8);
    assert Backed(rt.actor.rocq, proof, 1, rt.actor.process);
  }

  // ---------------------------------------------------------------- publications that spill

  /** One more sentence finishes the proof, and nothing happens before event 30. */
  lemma OneFragmentFinishes(rt: ProjectRuntime, host: Host, file: File, source: Text, mark: Fingerprint, fragment: Text)
    requires Declared(rt, host, file, source, mark) && Contents(host.Disk(), file) == Some(source)
    requires FragmentAdmitted(fragment) && forall t: nat :: 16 <= t < 30 ==> host.script(t) == Peace(mark)
    ensures QuietlyFinishing(rt, host, 0, [fragment])
    ensures rt.sessions[0].proof.Some? && rt.sessions[0].proof.value.target == Inserted(file, source)
    ensures PathWith(rt.sessions[0].proof.value, fragment) == [fragment]
  {
    var proof := rt.sessions[0].proof.value;
    assert proof.checkpoints[1] == Checkpoint(None, Some(8), None, false, BLANK);
    assert HandleAt(rt.sessions, 0, 1) == Some(8);
    assert BaseState(rt.sessions, rt.actor.process, 0) == RocqState(1);
    assert Fragments(proof, 1) == [];
  }

  /** A `check` that nothing disturbs until it has committed a finished proof, and whose publication spills. */
  method FinishQuietly(rt: ProjectRuntime, host: Host, s: Session, fragment: Text, ghost target: Target, ghost path: seq<Text>)
      returns (r: EngineResult<Checked>, ghost leak: set<Handle>)
    requires rt.Sound() && s in rt.sessions && rt.sessions[s].proof.Some?
    requires QuietlyFinishing(rt, host, s, [fragment]) && NoSwallowedLoss(host.script)
    requires rt.sessions[s].proof.value.target == target && PathWith(rt.sessions[s].proof.value, fragment) == path
    requires Spills(host.script, Moment(host.Clock() + 14, Committed, host.Disk()), target, path)
    modifies rt, rt.actor, host
    ensures r.Ok? && rt.Sound() && leak != {} && leak <= rt.Loose()
  {
    hide Checking.Started, Chosen, PublishedFully, PublishedOnly, Coherent, Finishing, Holds;
    ghost var trace, begun, start;
    ghost var proof := rt.sessions[s].proof.value;
    r, trace, begun, leak, start := Check(rt, host, s, [fragment], false, true);
    StartedLeaves(host.script, rt.actor.rocq, proof, [fragment], trace, r, begun, leak, start);
    DiskKept(host.script, old(host.era), old(host.since), 14);
    assert start == Some(Moment(old(host.Clock()) + 14, Committed, old(host.Disk())));
  }

  /** While nobody writes, what the files hold stays. */
  lemma DiskKept(script: nat -> Event, era: Era, since: nat, n: nat)
    requires EditFree(script, era.start + since, era.start + since + n)
    ensures era.At(script, era.start + since + n) == Drift(script, era.start, since, era.disk)
  {
    DriftOn(script, era.start, since, n, era.disk);
    DriftFree(script, era.start + since, n, Drift(script, era.start, since, era.disk));
  }

  /** From a new project to a proof that one fragment finishes. */
  method SetOutToFinish(file: File, source: Text, mark: Fingerprint, surprises: map<nat, Event>, fragment: Text) returns (rt: ProjectRuntime, host: Host)
    requires FragmentAdmitted(fragment) && forall t :: t in surprises ==> t >= 30
    ensures fresh(rt) && fresh(rt.actor) && fresh(host) && host.script == World(mark, surprises)
    ensures rt.Sound() && 0 in rt.sessions && rt.sessions[0].proof.Some? && QuietlyFinishing(rt, host, 0, [fragment])
    ensures rt.sessions[0].proof.value.target == Inserted(file, source) && PathWith(rt.sessions[0].proof.value, fragment) == [fragment]
    ensures host.Clock() == 16 && host.Disk() == map[file := Stored(source, false)]
  {
    rt, host := SetOut(mark, surprises, map[file := Stored(source, false)], file);
    OneFragmentFinishes(rt, host, file, source, mark, fragment);
  }

  /** From a new project to a publication that spills. */
  method SetOutAndFinish(file: File, source: Text, mark: Fingerprint, surprises: map<nat, Event>, fragment: Text)
      returns (rt: ProjectRuntime, r: EngineResult<Checked>, ghost leak: set<Handle>)
    requires FragmentAdmitted(fragment) && forall t :: t in surprises ==> t >= 30 && Mild(surprises[t])
    requires Spills(World(mark, surprises), Moment(30, Committed, map[file := Stored(source, false)]), Inserted(file, source), [fragment])
    ensures r.Ok? && rt.Sound() && leak != {} && leak <= rt.Loose()
  {
    MildWorld(mark, surprises);
    var host;
    rt, host := SetOutToFinish(file, source, mark, surprises, fragment);
    r, leak := FinishQuietly(rt, host, 0, fragment, Inserted(file, source), [fragment]);
  }

  /**
   * `check` finishes and commits a proof, and another program removes the source just before the
   * publication looks at it: the request succeeds, the epoch goes on, and the states the proof had
   * exported have no owner.
   */
  method SourceChangeLeaksHandles(file: File, source: Text, mark: Fingerprint, fragment: Text)
      returns (rt: ProjectRuntime, r: EngineResult<Checked>, ghost leak: set<Handle>)
    requires FragmentAdmitted(fragment)
    ensures r.Ok? && rt.Sound() && leak != {} && leak <= rt.Loose()
  {
    var removed := Peace(mark).(edit := Some(Edit(file, None)));
    assert World(mark, map[30 := removed])(30) == removed;
    rt, r, leak := SetOutAndFinish(file, source, mark, map[30 := removed], fragment);
  }

  /**
   * `check` finishes and commits a proof and writes it; the build rejects it, and the write that
   * would restore the source fails. Nothing is refreshed: the old process goes on exporting the
   * states of every session, and no session remembers any.
   */
  method StuckRollbackLeaksHandles(file: File, source: Text, mark: Fingerprint, fragment: Text)
      returns (rt: ProjectRuntime, r: EngineResult<Checked>, ghost leak: set<Handle>)
    requires FragmentAdmitted(fragment)
    ensures r.Ok? && rt.Sound() && leak != {} && leak <= rt.Loose()
  {
    var rejected, unwritten := Peace(mark).(build := SourceRejected), Peace(mark).(write := NotWritten);
    StuckSoon(World(mark, map[33 := rejected, 34 := unwritten]), file, source, mark, fragment);
    rt, r, leak := SetOutAndFinish(file, source, mark, map[33 := rejected, 34 := unwritten], fragment);
  }

  lemma StuckSoon(script: nat -> Event, file: File, source: Text, mark: Fingerprint, fragment: Text)
    requires script(30) == script(31) == script(32) == Peace(mark)
    requires script(33) == Peace(mark).(build := SourceRejected) && script(34) == Peace(mark).(write := NotWritten)
    ensures Spills(script, Moment(30, Committed, map[file := Stored(source, false)]), Inserted(file, source), [fragment])
  {
    var m, target := Moment(30, Committed, map[file := Stored(source, false)]), Inserted(file, source);
    assert SourceHolds(script, m, target);
    var w, p := Writing(script, m), Prepared(file, source, Replacement(source, target, [fragment]).value);
    var landed := Landing(script, 32, w.disk, p);
    assert w == Moment(32, Committed, m.disk) && First(script, 32, m.disk, p) == Swapped;
    assert Drift(script, 33, 0, landed) == landed && Drift(script, 33, 1, landed) == landed;
    assert EarlyLook(script, 32, Committed, m.disk, p) == 34;
  }

  // ---------------------------------------------------------------- a look that misses

  /** A `prove` that nothing disturbs until it looks at a declaration that is complete. */
  method LookQuietly(rt: ProjectRuntime, host: Host, s: Session, file: File, name: seq<string>)
      returns (r: EngineResult<Proving>, ghost leak: set<Handle>)
    requires rt.Sound() && s in rt.sessions && rt.sessions[s].proof.None? && host.Still(5) && NoSwallowedLoss(host.script)
    requires Current(host.script, host.Clock(), rt.artifacts, file) && SeesComplete(rt.actor, host.Disk(), file, name)
    requires Contents(Edited(host.Disk(), host.script(host.Clock() + 5).edit), file) == None
    modifies rt, rt.actor, host
    ensures r == Err(DeclarationChanged) && rt.Sound() && rt.actor.epoch == old(rt.actor.epoch)
    ensures leak == AllHandles(old(rt.sessions)) && leak <= rt.Loose()
  {
    ghost var backing, begun, look;
    r, backing, begun, leak, look := Prove(rt, host, s, file, name, true);
    DiskKept(host.script, old(host.era), old(host.since), 5);
    assert Misses(host.script, look);
  }

  /**
   * `prove` names a declaration that is complete in its source, and another program removes that
   * source just before it is looked at. The error does not end the epoch, and yet every handle of
   * every session has been forgotten, while the process still exports all of them.
   */
  method MissedLookLeaksHandles(file: File, source: Text, mark: Fingerprint)
      returns (rt: ProjectRuntime, r: EngineResult<Proving>, ghost leak: set<Handle>)
    requires source != []
    ensures r == Err(DeclarationChanged) && rt.Sound() && rt.actor.epoch == 0
    ensures leak == {8} && leak <= rt.Loose()
  {
    var removed := Peace(mark).(edit := Some(Edit(file, None)));
    MildWorld(mark, map[21 := removed]);
    var host;
    rt, host := SetOut(mark, map[21 := removed], map[file := Stored(source, false)], file);
    assert host.script(21) == removed;
    CompleteHere(rt.actor, host.Disk(), file, source);
    OneHandle(file, source);
    r, leak := LookQuietly(rt, host, 1, file, ["x"]);
  }

  lemma CompleteHere(actor: PetActor, disk: map<File, Stored>, file: File, source: Text)
    requires actor.rocq == Counting() && actor.process.Some? && actor.process.value.ready
    requires Contents(disk, file) == Some(source) && source != []
    ensures SeesComplete(actor, disk, file, ["x"])
  {
    assert Engine.Locate(Counting().rows(0, source), ["x"]).Some?;
  }

  lemma OneHandle(file: File, source: Text)
    ensures AllHandles(map[0 := RootOnly(file, source), 1 := Book(0, None)]) == {8}
    ensures HandleAt(map[0 := RootOnly(file, source), 1 := Book(0, None)], 0, 1) == Some(8)
  {
    var books := map[0 := RootOnly(file, source), 1 := Book(0, None)];
    assert books[0].proof.value.checkpoints[1].petState == Some(8);
    assert 8 in HandlesOf(books[0]) && HandlesOf(books[0]) == {8} && HandlesOf(books[1]) == {};
    assert AllHandles(books) == {8} by {
      assert 0 in books && 8 in HandlesOf(books[0]);
    }
  }

  // ---------------------------------------------------------------- a boundary nobody hears of

  /**
   * A build replaced an artifact that was remembered, and yet no epoch boundary follows, because
   * the next file cannot be read. The error does not end the epoch either, every session keeps its
   * states of the old artifact, and the new fingerprint is remembered, so no later request will see
   * a difference.
   */
  method UnreadableFileLosesBoundary(first: File, second: File, source: Text, before: Fingerprint, after: Fingerprint)
      returns (rt: ProjectRuntime, r: EngineResult<()>, ghost trace: seq<Rebuilt>)
    requires first != second && before != after
    ensures r.Err? && !InvalidatesEpoch(r.error) && SomeCross(trace) && |trace| == 1
    ensures Cached(rt.artifacts, first) == Some(after)
    ensures rt.actor.epoch == 0 && rt.actor.process.Some? && HandleAt(rt.sessions, 0, 1) == Some(8)
  {
    var surprises := map[18 := Peace(before).(fingerprint := Ok(after)), 19 := Peace(before).(fingerprint := Err(NotFound))];
    var host;
    rt, host := SetOut(before, surprises, map[first := Stored(source, false)], first);
    OneHandle(first, source);
    r, trace := SurveyUnread(rt, host, 1, first, second, after);
  }

  /** One build succeeds undisturbed and leaves `after`; the file looked at next cannot be read. */
  predicate HalfReadable(script: nat -> Event, t: nat, after: Fingerprint) {
    && script(t).signal.Quiet? && script(t + 1).signal.Quiet? && script(t + 2).signal.Quiet? && script(t + 1).build.Succeeded?
    && script(t).fingerprint.Ok? && script(t + 2).fingerprint == Ok(after) && script(t + 3).fingerprint.Err?
  }

  /** The first file is built anew, and the second cannot be read. */
  method SurveyUnread(rt: ProjectRuntime, host: Host, s: Session, first: File, second: File, ghost after: Fingerprint)
      returns (r: EngineResult<()>, ghost trace: seq<Rebuilt>)
    requires rt.Sound() && s in rt.sessions && first != second && host.request.Active?
    requires Cached(rt.artifacts, first).Some? && Cached(rt.artifacts, first) != Some(after)
    requires HalfReadable(host.script, host.Clock(), after)
    modifies rt, rt.actor, host
    ensures r.Err? && !InvalidatesEpoch(r.error) && SomeCross(trace) && |trace| == 1
    ensures Cached(rt.artifacts, first) == Some(after)
    ensures rt.actor.epoch == old(rt.actor.epoch) && rt.actor.process == old(rt.actor.process) && rt.sessions == old(rt.sessions)
  {
    SecondUnread(host.script, host.Now(), first, second, after);
    var ending;
    r, trace, ending := Survey(rt, host, s, [first, second]);
    assert SeenAs(host.script, trace[0]) && trace[0].Crosses();
    assert trace[..0] == [];
  }

  lemma SecondUnread(script: nat -> Event, m: Moment, first: File, second: File, after: Fingerprint)
    requires first != second && m.request.Active? && HalfReadable(script, m.clock, after)
    ensures FirstOccurrences([first, second]) == [first, second]
    ensures Went(PlanFrom(script, m, 2), Unread, 1)
  {
    assert [first, second][..1] == [first] && [first][..0] == [];
    assert FirstOccurrences([first]) == [first];
    assert Plan(script, m.clock + 3, Active, DiskAfter(script, m.clock, m.disk), 1).ending == Unread;
  }

  // ---------------------------------------------------------------- a late release

  /**
   * The last reference to session 0 goes away; before its states are released, a request of session 1
   * finds the project's view changed and starts a new epoch, which session 0 no longer hears of; session
   * 1 opens a proof, whose root is given the identifier session 0 still remembers; and then the release
   * takes that root away. No fault at all is needed.
   */
  method LateReleaseRobsAnother(file: File, source: Text, mark: Fingerprint) returns (rt: ProjectRuntime, host: Host)
    ensures NoSwallowedLoss(host.script) && host.request.Committed?
    ensures HandleAt(rt.sessions, 1, 1) == Some(8) && rt.actor.process.Some? && 8 !in rt.actor.process.value.exported
    ensures rt.Valid() && !rt.Sound()
  {
    var book;
    rt, host, book := LeaveAndReopen(file, source, mark);
    DeclareIn(rt, host, 1, file, mark);
    assert rt.sessions[1] == RootOnly(file, source) == book;
    SameHandle(rt.sessions, 1, file, source);
    GiveBack(rt, host, book);
  }

  lemma SameHandle(books: map<Session, Book>, s: Session, file: File, source: Text)
    requires s in books && books[s] == RootOnly(file, source)
    ensures HandleAt(books, s, 1) == Some(8) && Held(books, 8) && 8 in HandlesOf(RootOnly(file, source))
  {
    assert RootOnly(file, source).proof.value.checkpoints[1].petState == Some(8);
    assert HandleAt(books, s, 1) == Some(8);
  }

  /** Session 0 is on its way out, and a new epoch has begun without it. */
  method LeaveAndReopen(file: File, source: Text, mark: Fingerprint) returns (rt: ProjectRuntime, host: Host, book: Book)
    ensures fresh(rt) && fresh(rt.actor) && fresh(host) && NoSwallowedLoss(host.script) && host.request.Active?
    ensures rt.Sound() && rt.actor.rocq == Counting() && rt.actor.process == None && rt.artifacts == map[]
    ensures rt.sessions == map[1 := Book(0, None)] && book == RootOnly(file, source)
    ensures host.Disk() == map[file := Stored(source, false)] && forall t: nat :: host.Clock() <= t ==> host.script(t) == Peace(mark)
  {
    var reordered := Peace(mark).(layoutChanged := Ok(true));
    MildWorld(mark, map[16 := reordered]);
    rt, host := SetOut(mark, map[16 := reordered], map[file := Stored(source, false)], file);
    assert host.script(16) == reordered;
    book := Unlist(rt, 0);
    var refreshed := RefreshLayout(rt, host, 1);
    assert rt.sessions == map[1 := Book(0, None)];
  }

  // ---------------------------------------------------------------- a loss nobody hears of

  /**
   * Why a run of the server may have to stop: session 1 asks about a complete declaration, the goals of
   * the temporary state are refused, and the release that follows loses the process. The error reported
   * does not say so, and session 0, which had nothing to do with it, is left with a handle into nothing.
   */
  method SecondFaultBreaksCoherence(file: File, source: Text, mark: Fingerprint, command: Text)
      returns (rt: ProjectRuntime, host: Host, r: EngineResult<()>)
    requires source != []
    ensures r.Err? && !InvalidatesEpoch(r.error) && !NoSwallowedLoss(host.script)
    ensures HandleAt(rt.sessions, 0, 1) == Some(8) && rt.actor.process == None
    ensures rt.Valid() && !rt.Sound() && !Coherent(rt.actor.rocq, rt.sessions, rt.actor.process)
  {
    var surprises := map[22 := Peace(mark).(fault := Fault.Refused(System)), 23 := Peace(mark).(fault := Lost)];
    rt, host := SetOut(mark, surprises, map[file := Stored(source, false)], file);
    assert host.script(22) == surprises[22] && host.script(23) == surprises[23];
    RefusedThenLost(host.script, 22);
    OneHandle(file, source);
    r := AskAndLose(rt, host, file, source, mark, command);
  }

  /** The question and what it costs. */
  method AskAndLose(rt: ProjectRuntime, host: Host, file: File, source: Text, ghost mark: Fingerprint, command: Text) returns (r: EngineResult<()>)
    requires Declared(rt, host, file, source, mark) && source != [] && Contents(host.Disk(), file) == Some(source)
    requires (forall t: nat :: 16 <= t < 22 ==> host.script(t) == Peace(mark)) && Swallows(host.script, 22, Active)
    modifies rt, rt.actor, host
    ensures r.Err? && !InvalidatesEpoch(r.error) && rt.actor.process == None && rt.sessions == old(rt.sessions)
    ensures rt.Valid() && !rt.Sound() && !Coherent(rt.actor.rocq, rt.sessions, rt.actor.process)
  {
    CompleteHere(rt.actor, host.Disk(), file, source);
    OneHandle(file, source);
    ghost var asked, at;
    r, asked, at := AskPlaced(rt, host, 1, file, ["x"], command, true);
    assert Held(rt.sessions, 8);
    CoherentAfterLoss(rt.actor.rocq, rt.sessions);
  }

  lemma RefusedThenLost(script: nat -> Event, t: nat)
    requires script(t).fault == Fault.Refused(System) && script(t + 1).fault == Lost
    requires script(t).signal.Quiet? && script(t + 1).signal.Quiet?
    ensures Swallows(script, t, Active) && !NoSwallowedLoss(script)
  {
    assert !Orderly(script, t);
  }
}
