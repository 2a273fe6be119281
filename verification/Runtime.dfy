/** One project: its prover, its build-artifact memory and the books of the sessions attached to it. */
module Runtime {
  import opened Outcomes
  import opened Sources
  import opened Requests
  import opened Checkpoints
  import opened Prover
  import opened Coherence
  import opened Hosts
  import opened Pet
  import opened Engine
  import opened Writeback

  class ProjectRuntime {
    const actor: PetActor
    var artifacts: map<File, Fingerprint>
    /** Every attached session's book. A session owns its book, so books are values here. */
    var sessions: map<Session, Book>
    ghost predicate Valid()
      reads this, actor
    {
      actor.Valid() && AllWellFormed(sessions) && AllPublishable(actor.rocq, sessions)
    }

    /** The invariant between any two requests. */
    ghost predicate Sound()
      reads this, actor
    {
      Valid() && !actor.silentLoss && Coherent(actor.rocq, sessions, actor.process)
    }

    /** Exported identifiers without an owner. */
    ghost function Loose(): set<Handle>
      reads this, actor
    {
      Orphans(sessions, actor.process)
    }

    constructor (rocq: Rocq)
      ensures Sound() && fresh(actor) && actor.rocq == rocq && sessions == map[] && actor.process == None
      ensures actor.epoch == 0 && artifacts == map[]
    {
      actor := new PetActor(rocq);
      artifacts, sessions := map[], map[];
    }

    /** Every session attached to the project forgets its handles, the current one first. */
    method InvalidateProjectStates(current: Session)
      requires Valid() && current in sessions
      modifies this`sessions, actor`silentLoss
      ensures sessions == InvalidateAll(old(sessions))
      ensures Sound() && SameTrees(old(sessions), sessions) && Loose() == Table(actor.process).Keys
    {
      InvalidatedIsCoherent(actor.rocq, sessions, actor.process);
      ghost var books := sessions;
      sessions := ForgetEverywhere(sessions, current);
      SameTreesPublishable(actor.rocq, books, sessions);
      actor.silentLoss := false;
    }

    /** A deliberate epoch boundary. */
    method BeginEpoch(current: Session)
      requires Valid() && current in sessions
      modifies this`sessions, actor`process, actor`epoch, actor`silentLoss
      ensures sessions == InvalidateAll(old(sessions)) && Loose() == {}
      ensures actor.process == None && actor.epoch == old(actor.epoch) + 1
      ensures Sound() && SameTrees(old(sessions), sessions)
    {
      actor.Restart();
      InvalidateProjectStates(current);
    }
  }

  method ForgetEverywhere(books: map<Session, Book>, current: Session) returns (now: map<Session, Book>)
    requires current in books
    ensures now == InvalidateAll(books)
  {
    now := books[current := books[current].Invalidate()];
    var todo := books.Keys - {current};
    while todo != {}
      invariant todo <= now.Keys == books.Keys
      invariant forall s :: s in books ==> now[s] == if s in todo then books[s] else books[s].Invalidate()
      decreases |todo|
    {
      var s :| s in todo;
      now := now[s := now[s].Invalidate()];
      todo := todo - {s};
    }
  }

  /** An answer, or an error that does not tell the dispatcher the epoch is over. */
  predicate Intact<T>(r: EngineResult<T>) {
    r.Err? ==> !InvalidatesEpoch(r.error)
  }

  /**
   * What every operation of the adapter keeps. Unless it reports the loss of the epoch, every
   * handle in every book is exported, owned once and means what replay means; and no exported
   * identifier lost its owner.
   */
  twostate predicate Kept<T>(rt: ProjectRuntime, host: Host, new r: EngineResult<T>)
    reads rt, rt.actor, host
  {
    && Guarded(rt, host, r)
    && (Intact(r) && !rt.actor.silentLoss ==> rt.Loose() <= old(rt.Loose()))
  }

  /** `Kept` without its bound on what may lose its owner. */
  twostate predicate Guarded<T>(rt: ProjectRuntime, host: Host, new r: EngineResult<T>)
    reads rt, rt.actor, host
  {
    Upheld(rt, host, r) && Spared(rt)
  }

  /** The part of it about coherence and the request. */
  twostate predicate Upheld<T>(rt: ProjectRuntime, host: Host, new r: EngineResult<T>)
    reads rt, rt.actor, host
  {
    && rt.Valid()
    && rt.sessions.Keys == old(rt.sessions.Keys)
    && (old(host.request).Settled() ==> host.request == old(host.request))
    && (Intact(r) && !rt.actor.silentLoss ==> rt.Sound())
    && (r.Err? && r.error.RequestCancelled? ==> host.request.IsCancelled())
    && (r.Err? && InvalidatesEpoch(r.error) && !r.error.RequestCancelled? ==> Table(rt.actor.process) == map[])
    && (NoSwallowedLoss(host.script) && !old(rt.actor.silentLoss) ==> !rt.actor.silentLoss)
    && host.Later() && old(rt.actor.epoch) <= rt.actor.epoch
  }

  /** Within one epoch no state that had no owner is given one, or released. */
  twostate predicate Spared(rt: ProjectRuntime)
    reads rt, rt.actor
  {
    rt.actor.epoch == old(rt.actor.epoch) ==> old(rt.Loose()) <= rt.Loose()
  }

  /** Neither the clock nor the epoch went back, and no state without an owner was touched. */
  twostate predicate Onward(rt: ProjectRuntime, host: Host)
    reads rt, rt.actor, host
  {
    host.Later() && old(rt.actor.epoch) <= rt.actor.epoch && Spared(rt)
  }

  /** The graphs are as they were and the server wrote nothing. */
  twostate predicate Untouched(rt: ProjectRuntime, host: Host)
    reads rt, host
  {
    SameTrees(old(rt.sessions), rt.sessions) && Calm(old(host.log), host.log)
  }

  // ---------------------------------------------------------------- build artifacts

  /** One consumer build as `ReconcileArtifacts` saw it. */
  datatype Rebuilt = Rebuilt(file: File, cached: Option<Fingerprint>, before: Fingerprint, built: Fingerprint, at: nat)
  {
    /** The build replaced something the prover may have loaded. */
    predicate Crosses() {
      match cached
      case Some(previous) => previous != built
      case None => (before.vo.Some? || before.glob.Some?) && before != built
    }
  }

  function Cached(artifacts: map<File, Fingerprint>, file: File): Option<Fingerprint> {
    if file in artifacts then Some(artifacts[file]) else None
  }

  method ReadFingerprint(host: Host) returns (r: EngineResult<Fingerprint>)
    modifies host`since, host`request
    ensures OnlyInterrupted(old(host.request), host.request)
    ensures host.Disk() == Edited(old(host.Disk()), host.script(old(host.Clock())).edit)
    ensures host.Clock() == old(host.Clock()) + 1 && host.request == Deliver(old(host.request), host.script(old(host.Clock())).signal)
    ensures r.Ok? <==> host.script(old(host.Clock())).fingerprint.Ok?
    ensures r.Ok? ==> r.value == host.script(old(host.Clock())).fingerprint.value
    ensures r.Err? ==> !InvalidatesEpoch(r.error)
  {
    var e := host.Observe();
    r := match e.fingerprint
         case Ok(f) => Ok(f)
         case Err(k) => Err(k);
  }

  /** Build one consumer target and fingerprint the result. */
  method ReconcileSource(host: Host) returns (r: EngineResult<Fingerprint>)
    modifies host`since, host`request, host`log
    ensures OnlyInterrupted(old(host.request), host.request)
    ensures Calm(old(host.log), host.log) && host.Later()
    ensures r.Err? && InvalidatesEpoch(r.error) ==> r.error.RequestCancelled? && host.request.IsCancelled()
    ensures r.Ok? ==> host.Disk() == Edited(Edited(old(host.Disk()), host.script(old(host.Clock())).edit), host.script(old(host.Clock()) + 1).edit)
    ensures r.Ok? <==> Builds(host.script(old(host.Clock())), old(host.request)) && host.script(old(host.Clock()) + 1).fingerprint.Ok?
    ensures r.Ok? ==> r.value == host.script(old(host.Clock()) + 1).fingerprint.value && host.Clock() == old(host.Clock()) + 2
                      && host.request == Deliver(Deliver(old(host.request), host.script(old(host.Clock())).signal),
                                                 host.script(old(host.Clock()) + 1).signal)
  {
    var build := NativeBuild(host);
    if build.Err? { return Err(build.error); }
    r := ReadFingerprint(host);
  }

  /** Every file once, where it is first named. */
  function FirstOccurrences(files: seq<File>): seq<File> {
    if files == [] then []
    else
      var earlier := FirstOccurrences(files[..|files| - 1]);
      if files[|files| - 1] in earlier then earlier else earlier + [files[|files| - 1]]
  }

  lemma {:induction false} NoneTwice(files: seq<File>)
    ensures forall i, j :: 0 <= i < j < |FirstOccurrences(files)| ==> FirstOccurrences(files)[i] != FirstOccurrences(files)[j]
    ensures forall f :: f in FirstOccurrences(files) <==> f in files
    decreases |files|
  {
    if files != [] {
      var init := files[..|files| - 1];
      NoneTwice(init);
      assert files == init + [files[|files| - 1]];
    }
  }

  /** They come in the order of their first mention: those of a beginning are a beginning. */
  lemma {:induction false} MentionedInOrder(files: seq<File>, k: nat)
    requires k <= |files|
    ensures FirstOccurrences(files[..k]) <= FirstOccurrences(files)
    ensures 0 < k ==> FirstOccurrences(files)[..1] == files[..1]
    decreases |files|
  {
    if k < |files| {
      var init := files[..|files| - 1];
      assert init[..k] == files[..k];
      MentionedInOrder(init, k);
    } else {
      assert files[..k] == files;
    }
    if 0 < k && |files| > 1 {
      var init := files[..|files| - 1];
      assert init[..1] == files[..1];
      MentionedInOrder(init, |init|);
    }
  }

  method Distinct(files: seq<File>) returns (unique: seq<File>)
    ensures unique == FirstOccurrences(files)
  {
    unique := [];
    for k := 0 to |files|
      invariant unique == FirstOccurrences(files[..k])
    {
      assert files[..k + 1][..k] == files[..k];
      if files[k] !in unique {
        unique := unique + [files[k]];
      }
    }
    assert files[..|files|] == files;
  }

  /** How `ReconcileArtifacts` ended. */
  datatype Ending = Settled | BuildFailed | Unread | CutShort

  /** How the round for one file ends when it starts at `t`. */
  function Round(script: nat -> Event, t: nat, request: RequestState): Ending {
    if request.IsCancelled() then CutShort
    else if script(t).fingerprint.Err? then Unread
    else if !Builds(script(t + 1), Deliver(request, script(t).signal)) || script(t + 2).fingerprint.Err? then BuildFailed
    else Settled
  }

  function AfterRound(script: nat -> Event, t: nat, request: RequestState): RequestState {
    Deliver(Deliver(Deliver(request, script(t).signal), script(t + 1).signal), script(t + 2).signal)
  }

  /** The disk after a round, if nobody but other programs writes. */
  function DiskAfter(script: nat -> Event, t: nat, disk: map<File, Stored>): map<File, Stored> {
    Edited(Edited(Edited(disk, script(t).edit), script(t + 1).edit), script(t + 2).edit)
  }

  /** How a number of rounds went: the ending, how many settled, and the request and the disk when they had. */
  datatype Course = Course(ending: Ending, settled: nat, request: RequestState, disk: map<File, Stored>)

  /** How `n` rounds from `t` on go. */
  function Plan(script: nat -> Event, t: nat, request: RequestState, disk: map<File, Stored>, n: nat): Course
    decreases n
  {
    if n == 0 then Course(Settled, 0, request, disk)
    else match Round(script, t, request)
      case Settled =>
        var rest := Plan(script, t + 3, AfterRound(script, t, request), DiskAfter(script, t, disk), n - 1);
        rest.(settled := rest.settled + 1)
      case other => Course(other, 0, request, disk)
  }

  /** How round `k` ends, given that it is reached. */
  function RoundAt(script: nat -> Event, t: nat, request: RequestState, k: nat): Ending
    decreases k
  {
    if k == 0 then Round(script, t, request) else RoundAt(script, t + 3, AfterRound(script, t, request), k - 1)
  }

  /** Round `k` is the first that does not settle, and this is how it ends. */
  ghost predicate FirstStop(script: nat -> Event, t: nat, request: RequestState, n: nat, k: nat, how: Ending) {
    && k < n && RoundAt(script, t, request, k) == how
    && forall j: nat :: j < k ==> RoundAt(script, t, request, j) == Settled
  }

  /** Some round ends this way before any other failure. */
  ghost predicate StopsBy(script: nat -> Event, t: nat, request: RequestState, n: nat, how: Ending) {
    exists k: nat :: FirstStop(script, t, request, n, k, how)
  }

  /** The loop leaves because of an unreadable file, say, exactly when one comes before any other failure. */
  lemma {:induction false} LeavesAtFirst(script: nat -> Event, t: nat, request: RequestState, disk: map<File, Stored>, n: nat, how: Ending)
    requires how != Settled
    ensures Plan(script, t, request, disk, n).ending == how <==> StopsBy(script, t, request, n, how)
    ensures Plan(script, t, request, disk, n).ending == how ==>
              FirstStop(script, t, request, n, Plan(script, t, request, disk, n).settled, how)
    decreases n
  {
    if n > 0 {
      var next, later := AfterRound(script, t, request), DiskAfter(script, t, disk);
      assert RoundAt(script, t, request, 0) == Round(script, t, request);
      if Round(script, t, request) == Settled {
        LeavesAtFirst(script, t + 3, next, later, n - 1, how);
        var rest := Plan(script, t + 3, next, later, n - 1);
        if rest.ending == how {
          LaterStop(script, t, request, n, rest.settled, how);
        }
        forall k: nat | FirstStop(script, t, request, n, k, how) ensures rest.ending == how {
          if k > 0 {
            LaterStop(script, t, request, n, k - 1, how);
          }
        }
      } else if Round(script, t, request) == how {
        assert FirstStop(script, t, request, n, 0, how);
      }
    }
  }

  lemma LaterStop(script: nat -> Event, t: nat, request: RequestState, n: nat, k: nat, how: Ending)
    requires n > 0 && Round(script, t, request) == Settled
    ensures FirstStop(script, t + 3, AfterRound(script, t, request), n - 1, k, how) <==> FirstStop(script, t, request, n, k + 1, how)
  {
    var next, start := AfterRound(script, t, request), t + 3;
    if FirstStop(script, start, next, n - 1, k, how) {
      forall j: nat | j < k + 1 ensures RoundAt(script, t, request, j) == Settled {
        if j > 0 {
          assert RoundAt(script, t + 3, next, j - 1) == Settled;
        }
      }
    }
    if FirstStop(script, t, request, n, k + 1, how) {
      forall j: nat | j < k ensures RoundAt(script, start, next, j) == Settled {
        assert RoundAt(script, t, request, j + 1) == Settled;
      }
    }
  }

  ghost predicate SomeCross(trace: seq<Rebuilt>) {
    exists i :: 0 <= i < |trace| && trace[i].Crosses()
  }

  function Record(artifacts: map<File, Fingerprint>, trace: seq<Rebuilt>): map<File, Fingerprint> {
    if trace == [] then artifacts
    else Record(artifacts, trace[..|trace| - 1])[trace[|trace| - 1].file := trace[|trace| - 1].built]
  }

  /** Each file once, against the fingerprint remembered before the call. */
  ghost predicate Follows(trace: seq<Rebuilt>, files: seq<File>, artifacts: map<File, Fingerprint>) {
    && |trace| <= |files|
    && forall i :: 0 <= i < |trace| ==> trace[i].file == files[i] && trace[i].cached == Cached(artifacts, files[i])
  }

  lemma {:induction false} RecordElsewhere(artifacts: map<File, Fingerprint>, trace: seq<Rebuilt>, file: File)
    requires forall i :: 0 <= i < |trace| ==> trace[i].file != file
    ensures Cached(Record(artifacts, trace), file) == Cached(artifacts, file)
    decreases |trace|
  {
    if trace != [] {
      RecordElsewhere(artifacts, trace[..|trace| - 1], file);
    }
  }

  lemma SomeCrossAppend(trace: seq<Rebuilt>, last: Rebuilt)
    ensures SomeCross(trace + [last]) <==> SomeCross(trace) || last.Crosses()
  {
    var all := trace + [last];
    assert all[|trace|] == last;
    if SomeCross(trace) {
      var k :| 0 <= k < |trace| && trace[k].Crosses();
      assert all[k].Crosses();
    }
  }

  /** The record is what the world showed: the file before its build, a successful build, the file after it. */
  predicate SeenAs(script: nat -> Event, rebuilt: Rebuilt) {
    var t := rebuilt.at;
    && script(t).fingerprint.Ok? && script(t).fingerprint.value == rebuilt.before
    && script(t + 1).build.Succeeded?
    && script(t + 2).fingerprint.Ok? && script(t + 2).fingerprint.value == rebuilt.built
  }

  ghost predicate Observed(script: nat -> Event, trace: seq<Rebuilt>) {
    forall i :: 0 <= i < |trace| ==> SeenAs(script, trace[i])
  }

  /** How far the loop below has come: what it recorded, remembered and concluded. */
  ghost predicate Progress(trace: seq<Rebuilt>, files: seq<File>, was: map<File, Fingerprint>, now: map<File, Fingerprint>,
                           script: nat -> Event, boundary: bool)
  {
    && Follows(trace, files, was) && Observed(script, trace)
    && now == Record(was, trace) && (boundary <==> SomeCross(trace))
  }

  lemma OneMoreBuild(trace: seq<Rebuilt>, files: seq<File>, was: map<File, Fingerprint>, now: map<File, Fingerprint>,
                     script: nat -> Event, boundary: bool, last: Rebuilt)
    requires Progress(trace, files, was, now, script, boundary) && |trace| < |files|
    requires forall i, j :: 0 <= i < j < |files| ==> files[i] != files[j]
    requires last.file == files[|trace|] && last.cached == Cached(now, last.file) && SeenAs(script, last)
    ensures Progress(trace + [last], files, was, now[last.file := last.built], script, boundary || last.Crosses())
  {
    RecordElsewhere(was, trace, last.file);
    SomeCrossAppend(trace, last);
    assert (trace + [last])[..|trace|] == trace;
  }

  /** In a still world one round settles and changes nothing. */
  lemma QuietRound(script: nat -> Event, m: Moment)
    requires Hush(script, m.clock, m.clock + 3) && !m.request.IsCancelled()
    requires script(m.clock).fingerprint.Ok? && script(m.clock + 2).fingerprint.Ok?
    ensures PlanFrom(script, m, 1) == Course(Settled, 1, m.request, m.disk)
  {
    assert Plan(script, m.clock + 3, m.request, m.disk, 0) == Course(Settled, 0, m.request, m.disk);
  }

  /** The round that starts at moment `k` settles and leads to the next one. */
  predicate SettlesAt(script: nat -> Event, ms: seq<Moment>, k: nat) {
    && k + 1 < |ms| && Round(script, ms[k].clock, ms[k].request) == Settled
    && ms[k + 1] == Moment(ms[k].clock + 3, AfterRound(script, ms[k].clock, ms[k].request), DiskAfter(script, ms[k].clock, ms[k].disk))
  }

  ghost predicate Rounds(script: nat -> Event, ms: seq<Moment>) {
    ms != [] && forall k: nat :: k + 1 < |ms| ==> SettlesAt(script, ms, k)
  }

  lemma OneMoreRound(script: nat -> Event, ms: seq<Moment>, next: Moment)
    requires Rounds(script, ms) && SettlesAt(script, [ms[|ms| - 1], next], 0)
    ensures Rounds(script, ms + [next])
  {
    var all := ms + [next];
    forall k: nat | k + 1 < |all| ensures SettlesAt(script, all, k) {
      assert k + 1 < |ms| ==> SettlesAt(script, ms, k);
    }
  }

  function PlanFrom(script: nat -> Event, m: Moment, n: nat): Course {
    Plan(script, m.clock, m.request, m.disk, n)
  }

  /** Rounds that settled, one after the other, are the beginning of the plan. */
  lemma {:induction false} RoundsFollowPlan(script: nat -> Event, ms: seq<Moment>, n: nat)
    requires Rounds(script, ms) && |ms| - 1 <= n
    ensures var i := |ms| - 1;
            var rest := PlanFrom(script, ms[i], n - i);
            PlanFrom(script, ms[0], n) == rest.(settled := rest.settled + i)
    decreases |ms|
  {
    if |ms| > 1 {
      assert SettlesAt(script, ms, 0);
      var later := ms[1..];
      forall k: nat | k + 1 < |later| ensures SettlesAt(script, later, k) {
        assert SettlesAt(script, ms, k + 1);
      }
      RoundsFollowPlan(script, later, n - 1);
    }
  }

  /** So a loop that stops after some settled rounds stops where the plan does. */
  lemma StopsAsPlanned(script: nat -> Event, ms: seq<Moment>, n: nat)
    requires Rounds(script, ms) && |ms| - 1 <= n
    ensures var last := ms[|ms| - 1];
            && (|ms| - 1 == n ==> PlanFrom(script, ms[0], n) == Course(Settled, n, last.request, last.disk))
            && (|ms| - 1 < n && Round(script, last.clock, last.request) != Settled ==>
                  Went(PlanFrom(script, ms[0], n), Round(script, last.clock, last.request), |ms| - 1))
  {
    RoundsFollowPlan(script, ms, n);
  }

  /** One round of the loop below: what was there, and what the build made of it. */
  method Rebuild(rt: ProjectRuntime, host: Host, file: File) returns (r: EngineResult<Rebuilt>, ending: Ending)
    modifies host`since, host`request, host`log
    ensures OnlyInterrupted(old(host.request), host.request) && Calm(old(host.log), host.log) && host.Later()
    ensures ending == Round(host.script, old(host.Clock()), old(host.request))
    ensures r.Ok? <==> ending.Settled?
    ensures r.Ok? ==> r.value.file == file && r.value.cached == Cached(rt.artifacts, file)
    ensures r.Ok? ==> r.value.at == old(host.Clock()) && SeenAs(host.script, r.value)
    ensures r.Ok? ==> host.Clock() == old(host.Clock()) + 3 && host.request == AfterRound(host.script, old(host.Clock()), old(host.request))
                      && host.Disk() == DiskAfter(host.script, old(host.Clock()), old(host.Disk()))
    ensures r.Err? && InvalidatesEpoch(r.error) ==> r.error.RequestCancelled? && host.request.IsCancelled()
    ensures ending.Unread? ==> !InvalidatesEpoch(r.error)
    ensures ending.CutShort? ==> r == Err(RequestCancelled)
  {
    if host.request.IsCancelled() { return Err(RequestCancelled), CutShort; }
    var at := host.Clock();
    var before := ReadFingerprint(host);
    if before.Err? { return Err(before.error), Unread; }
    var cached := Cached(rt.artifacts, file);
    var built := ReconcileSource(host);
    if built.Err? { return Err(built.error), BuildFailed; }
    r, ending := Ok(Rebuilt(file, cached, before.value, built.value, at)), Settled;
  }

  /** The loop over distinct files. A failed build forgets its artifact; the epoch is the caller's. */
  method RebuildAll(rt: ProjectRuntime, host: Host, unique: seq<File>)
      returns (r: EngineResult<bool>, ghost trace: seq<Rebuilt>, ending: Ending)
    requires forall i, j :: 0 <= i < j < |unique| ==> unique[i] != unique[j]
    modifies rt`artifacts, host`since, host`request, host`log
    ensures OnlyInterrupted(old(host.request), host.request) && Calm(old(host.log), host.log) && host.Later()
    ensures Went(PlanFrom(host.script, old(host.Now()), |unique|), ending, |trace|)
    ensures Follows(trace, unique, old(rt.artifacts)) && Observed(host.script, trace) && Timed(trace, old(host.Clock()))
    ensures r.Ok? <==> ending.Settled?
    ensures r.Ok? ==> |trace| == |unique| && (r.value <==> SomeCross(trace))
    ensures r.Ok? ==> host.Clock() == old(host.Clock()) + 3 * |unique|
                      && PlanFrom(host.script, old(host.Now()), |unique|)
                         == Course(Settled, |unique|, host.request, host.Disk())
    ensures !ending.BuildFailed? ==> rt.artifacts == Record(old(rt.artifacts), trace)
    ensures ending.BuildFailed? ==> |trace| < |unique| && rt.artifacts == Record(old(rt.artifacts), trace) - {unique[|trace|]}
    ensures r.Err? && InvalidatesEpoch(r.error) ==> r.error.RequestCancelled? && host.request.IsCancelled()
    ensures ending.Unread? ==> !InvalidatesEpoch(r.error)
    ensures ending.CutShort? ==> r == Err(RequestCancelled)
  {
    var boundary := false;
    trace := [];
    ghost var ms := [host.Now()];
    for i := 0 to |unique|
      invariant |trace| == i && Timed(trace, old(host.Clock())) && host.Clock() == old(host.Clock()) + 3 * i
      invariant |ms| == i + 1 && ms[0] == old(host.Now())
      invariant Rounds(host.script, ms) && ms[i] == host.Now()
      invariant Progress(trace, unique, old(rt.artifacts), rt.artifacts, host.script, boundary)
      invariant OnlyInterrupted(old(host.request), host.request) && Calm(old(host.log), host.log)
    {
      ghost var log := host.log;
      var more, how;
      more, how, trace := RebuildNext(rt, host, unique, i, boundary, trace, old(rt.artifacts));
      CalmOn(old(host.log), log, host.log);
      if more.Err? {
        StopsAsPlanned(host.script, ms, |unique|);
        return Err(more.error), trace, how;
      }
      boundary := more.value;
      ghost var now := host.Now();
      OneMoreRound(host.script, ms, now);
      ms := ms + [now];
    }
    StopsAsPlanned(host.script, ms, |unique|);
    r, ending := Ok(boundary), Settled;
  }

  predicate Went(course: Course, ending: Ending, settled: nat) {
    course.ending == ending && course.settled == settled
  }

  /** Round `i`, written down and remembered. */
  method RebuildNext(rt: ProjectRuntime, host: Host, unique: seq<File>, i: nat, boundary: bool,
                     ghost trace: seq<Rebuilt>, ghost was: map<File, Fingerprint>)
      returns (r: EngineResult<bool>, how: Ending, ghost longer: seq<Rebuilt>)
    requires i < |unique| && |trace| == i && Progress(trace, unique, was, rt.artifacts, host.script, boundary)
    requires forall j, k :: 0 <= j < k < |unique| ==> unique[j] != unique[k]
    modifies rt`artifacts, host`since, host`request, host`log
    ensures OnlyInterrupted(old(host.request), host.request) && Calm(old(host.log), host.log) && host.Later()
    ensures how == Round(host.script, old(host.Clock()), old(host.request)) && (r.Ok? <==> how.Settled?)
    ensures r.Ok? ==> |longer| == i + 1 && longer[..i] == trace && longer[i].at == old(host.Clock())
                      && Progress(longer, unique, was, rt.artifacts, host.script, r.value)
    ensures r.Ok? ==> host.Clock() == old(host.Clock()) + 3 && host.request == AfterRound(host.script, old(host.Clock()), old(host.request))
                      && host.Disk() == DiskAfter(host.script, old(host.Clock()), old(host.Disk()))
    ensures r.Err? ==> longer == trace && rt.artifacts == if how.BuildFailed? then old(rt.artifacts) - {unique[i]} else old(rt.artifacts)
    ensures r.Err? && InvalidatesEpoch(r.error) ==> r.error.RequestCancelled? && host.request.IsCancelled()
    ensures how.Unread? ==> !InvalidatesEpoch(r.error)
    ensures how.CutShort? ==> r == Err(RequestCancelled)
  {
    longer := trace;
    var rebuilt;
    rebuilt, how := Rebuild(rt, host, unique[i]);
    if how.BuildFailed? {
      rt.artifacts := rt.artifacts - {unique[i]};
    }
    if rebuilt.Err? { return Err(rebuilt.error), how, longer; }
    OneMoreBuild(trace, unique, was, rt.artifacts, host.script, boundary, rebuilt.value);
    longer := trace + [rebuilt.value];
    rt.artifacts := rt.artifacts[unique[i] := rebuilt.value.built];
    r := Ok(boundary || rebuilt.value.Crosses());
  }

  /** One round after the other, from `t` on. */
  ghost predicate Timed(trace: seq<Rebuilt>, t: nat) {
    forall i :: 0 <= i < |trace| ==> trace[i].at == t + 3 * i
  }

  /**
   * Build every distinct consumer, then cross at most one epoch boundary: exactly when some build
   * changed what was remembered, or replaced an artifact that already existed. `Plan` says how the
   * loop ends. A failed build always crosses a boundary; an unreadable file, or an interruption
   * between two files, leaves at once, crossing none, whatever was rebuilt before it.
   */
  method ReconcileArtifacts(rt: ProjectRuntime, host: Host, s: Session, files: seq<File>)
      returns (r: EngineResult<()>, ghost trace: seq<Rebuilt>, ending: Ending)
    requires rt.Sound() && s in rt.sessions
    modifies rt, rt.actor, host`since, host`request, host`log
    ensures Kept(rt, host, r) && Untouched(rt, host) && !rt.actor.silentLoss
    ensures OnlyInterrupted(old(host.request), host.request)
    ensures Told(host.script, old(host.Now()), files, old(rt.artifacts), trace, ending)
    ensures r.Ok? <==> ending.Settled?
    ensures r.Ok? ==> host.Clock() == old(host.Clock()) + 3 * |FirstOccurrences(files)|
                      && PlanFrom(host.script, old(host.Now()), |FirstOccurrences(files)|)
                         == Course(Settled, |FirstOccurrences(files)|, host.request, host.Disk())
    ensures ending.Unread? ==> !InvalidatesEpoch(r.error)
    ensures ending.CutShort? ==> r == Err(RequestCancelled)
    ensures !ending.BuildFailed? ==> rt.artifacts == Record(old(rt.artifacts), trace)
    ensures ending.BuildFailed? ==> |trace| < |FirstOccurrences(files)|
                                    && rt.artifacts == Record(old(rt.artifacts), trace) - {FirstOccurrences(files)[|trace|]}
    ensures Honoured(ending, trace) ==> rt.actor.process == None && rt.actor.epoch == old(rt.actor.epoch) + 1
                                        && rt.sessions == InvalidateAll(old(rt.sessions))
    ensures !Honoured(ending, trace) ==> rt.actor.process == old(rt.actor.process) && rt.actor.epoch == old(rt.actor.epoch)
                                         && rt.sessions == old(rt.sessions)
  {
    hide Coherent, SameTrees, Orphans, Observed, Follows, Timed, Calm;
    var unique := Distinct(files);
    NoneTwice(files);
    var rebuilt;
    rebuilt, trace, ending := RebuildAll(rt, host, unique);
    CrossIf(rt, s, ending.BuildFailed? || rebuilt == Ok(true));
    r := if rebuilt.Ok? then Ok(()) else Err(rebuilt.error);
  }

  method CrossIf(rt: ProjectRuntime, s: Session, boundary: bool)
    requires rt.Sound() && s in rt.sessions
    modifies rt`sessions, rt.actor`process, rt.actor`epoch, rt.actor`silentLoss
    ensures rt.Sound() && SameTrees(old(rt.sessions), rt.sessions) && rt.Loose() <= old(rt.Loose()) && Spared(rt)
    ensures boundary ==> rt.actor.process == None && rt.actor.epoch == old(rt.actor.epoch) + 1
                         && rt.sessions == InvalidateAll(old(rt.sessions))
    ensures !boundary ==> rt.actor.process == old(rt.actor.process) && rt.actor.epoch == old(rt.actor.epoch)
                          && rt.sessions == old(rt.sessions)
  {
    if boundary {
      rt.BeginEpoch(s);
    }
  }

  /**
   * What the rounds saw, all of it fixed by the world: they went as planned, one after the other, each
   * file in the order of its first mention, compared with what was remembered before the call.
   */
  ghost predicate Told(script: nat -> Event, start: Moment, files: seq<File>, was: map<File, Fingerprint>, trace: seq<Rebuilt>, ending: Ending)
  {
    && Went(PlanFrom(script, start, |FirstOccurrences(files)|), ending, |trace|)
    && Follows(trace, FirstOccurrences(files), was)
    && Observed(script, trace) && Timed(trace, start.clock)
    && (ending.Settled? ==> |trace| == |FirstOccurrences(files)|)
  }

  /** An epoch boundary follows: a build failed, or one changed something and the loop came to its end. */
  ghost predicate Honoured(ending: Ending, trace: seq<Rebuilt>) {
    ending.BuildFailed? || (ending.Settled? && SomeCross(trace))
  }

  /**
   * A boundary that some build crossed is honoured exactly when neither an unreadable file nor an
   * interruption stops the loop before its end or a failed build.
   */
  lemma HonouredExactly(script: nat -> Event, start: Moment, files: seq<File>, was: map<File, Fingerprint>, trace: seq<Rebuilt>, ending: Ending)
    requires Told(script, start, files, was, trace, ending) && SomeCross(trace)
    ensures Honoured(ending, trace) <==>
              && !StopsBy(script, start.clock, start.request, |FirstOccurrences(files)|, Unread)
              && !StopsBy(script, start.clock, start.request, |FirstOccurrences(files)|, CutShort)
  {
    LeavesAtFirst(script, start.clock, start.request, start.disk, |FirstOccurrences(files)|, Unread);
    LeavesAtFirst(script, start.clock, start.request, start.disk, |FirstOccurrences(files)|, CutShort);
  }
}
