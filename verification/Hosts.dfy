/**
 * Everything outside the server: the operating system, Dune, the prover's replies, editors writing
 * to the same files, and the peer that may cancel. A host is driven by a fixed script of events;
 * a statement about every host is a statement about every behaviour of the outside world.
 */
module Hosts {
  import opened Outcomes
  import opened Sources
  import opened Requests

  type Interruption = s: Signal | !s.Commits? witness Quiet

  /** How one request to the prover ends, apart from what Rocq itself decides. */
  datatype Fault = Answered | Lost | DeadlineHit | Refused(kind: RemoteKind)

  datatype Build = Succeeded | SourceRejected | RanOut | Unavailable

  /** An atomic replacement may fail before the rename, or after it while syncing the directory. */
  datatype Write = Persisted | NotWritten | PersistedUnsynced

  /** Another program replaces or removes a file. */
  datatype Edit = Edit(file: File, contents: Option<Text>)

  /** A file on disk; `ours` when its present contents were written by the server itself. */
  datatype Stored = Stored(text: Text, ours: bool)

  /** What can go wrong with a file says nothing about the prover. */
  type FileError = k: ErrorKind | !InvalidatesEpoch(k) witness NotFound

  /** Source digest, and the digests of the two build outputs when present. */
  datatype Fingerprint = Fingerprint(source: Text, vo: Option<Text>, glob: Option<Text>)

  datatype Event = Event(
    signal: Interruption,
    edit: Option<Edit>,
    fault: Fault,
    lostOnDrop: bool,
    env: nat,
    firstId: nat,
    build: Build,
    write: Write,
    readable: bool,
    selected: bool,
    fingerprint: Result<Fingerprint, FileError>,
    layoutChanged: Result<bool, FileError>)

  /** What the server itself did, in order. `before` is what the file held when it was replaced. */
  datatype Effect =
    | Wrote(file: File, before: Text, after: Text)
    | WriteFailed(file: File)
    | Built(result: Build)
    | Refreshed(epoch: nat)
    | Confirmed(file: File, contents: Text)
    | Resolved(finished: bool, kind: Kind, epoch: nat)
    | Audited(epoch: nat, report: Report)

  function Edited(disk: map<File, Stored>, edit: Option<Edit>): map<File, Stored> {
    match edit
    case None => disk
    case Some(Edit(f, Some(text))) => disk[f := Stored(text, false)]
    case Some(Edit(f, None)) => disk - {f}
  }

  /** Nothing happens, and whatever is asked works. */
  predicate Peaceful(e: Event) {
    && e.signal.Quiet? && e.edit.None? && e.fault.Answered? && e.build.Succeeded?
    && e.readable && e.selected && e.layoutChanged == Ok(false)
  }

  /** The disk `n` events after it was `disk` at `t`, when other programs alone write. */
  function Drift(script: nat -> Event, t: nat, n: nat, disk: map<File, Stored>): map<File, Stored> {
    if n == 0 then disk else Edited(Drift(script, t, n - 1, disk), script(t + n - 1).edit)
  }

  lemma {:induction false} DriftOn(script: nat -> Event, t: nat, m: nat, n: nat, disk: map<File, Stored>)
    ensures Drift(script, t + m, n, Drift(script, t, m, disk)) == Drift(script, t, m + n, disk)
    decreases n
  {
    if n > 0 {
      DriftOn(script, t, m, n - 1, disk);
    }
  }

  /** Nobody else writes to any file from `from` until just before `to`. */
  ghost predicate EditFree(script: nat -> Event, from: nat, to: nat) {
    forall u: nat :: from <= u < to ==> script(u).edit.None?
  }

  lemma {:induction false} DriftFree(script: nat -> Event, t: nat, n: nat, disk: map<File, Stored>)
    requires EditFree(script, t, t + n)
    ensures Drift(script, t, n, disk) == disk
    decreases n
  {
    if n > 0 {
      DriftFree(script, t, n - 1, disk);
    }
  }

  /** The world keeps still from `from` until just before `to`. */
  ghost predicate Hush(script: nat -> Event, from: nat, to: nat) {
    forall u: nat :: from <= u < to ==> Peaceful(script(u))
  }

  /** Between two points only interruptions arrived: nothing settled moved and nothing committed. */
  predicate OnlyInterrupted(a: RequestState, b: RequestState) {
    && (a.Settled() ==> b == a)
    && (b.Committed? ==> a.Committed?)
  }

  function Contents(disk: map<File, Stored>, file: File): Option<Text> {
    if file in disk then Some(disk[file].text) else None
  }

  /** At this event the file could be read and held exactly `text`. */
  predicate Seen(e: Event, disk: map<File, Stored>, file: File, text: Text) {
    e.readable && Contents(Edited(disk, e.edit), file) == Some(text)
  }

  /** The server's own text is what the file holds now. */
  predicate LeftOnDisk(disk: map<File, Stored>, file: File, text: Text) {
    file in disk && disk[file] == Stored(text, true)
  }

  /** Whatever happened to the disk, the server wrote none of it. */
  ghost predicate Unwritten(before: map<File, Stored>, after: map<File, Stored>) {
    forall f, t :: LeftOnDisk(after, f, t) ==> LeftOnDisk(before, f, t)
  }

  /** A point of a run: when it is, how the request stands, and what the files hold. */
  datatype Moment = Moment(clock: nat, request: RequestState, disk: map<File, Stored>)

  /** A stretch of time that starts at a write of the server's own, or at the beginning. */
  datatype Era = Era(start: nat, disk: map<File, Stored>)
  {
    /** What the files hold at `t`, as long as the server does not write again. */
    function At(script: nat -> Event, t: nat): map<File, Stored> {
      if t < start then disk else Drift(script, start, t - start, disk)
    }
  }

  /** A moment from `from` until just before `to`, in an era in which the server has not written again by then. */
  predicate Within(script: nat -> Event, era: Era, from: nat, to: nat, m: Moment) {
    from <= m.clock < to && m.disk == era.At(script, m.clock)
  }

  /** A moment from `from` to `to`, both included, in one era. */
  predicate During(script: nat -> Event, era: Era, from: nat, to: nat, m: Moment) {
    from <= m.clock <= to && m.disk == era.At(script, m.clock)
  }

  class Host {
    const script: nat -> Event
    var era: Era
    /** How many events the era has had so far. */
    var since: nat
    var request: RequestState
    var log: seq<Effect>

    function Clock(): nat
      reads this
    {
      era.start + since
    }

    function Disk(): map<File, Stored>
      reads this
    {
      Drift(script, era.start, since, era.disk)
    }

    ghost function Now(): Moment
      reads this
    {
      Moment(Clock(), request, Disk())
    }

    /** The next `n` events bring nothing, and the request is not cancelled. */
    ghost predicate Still(n: nat)
      reads this
    {
      Hush(script, Clock(), Clock() + n) && !request.IsCancelled()
    }

    /** The same, seen from the end of the call. */
    twostate predicate Quietly(n: nat)
      reads this
    {
      old(Still(n))
    }

    /** Time does not go back. */
    twostate predicate Later()
      reads this
    {
      old(Clock()) <= Clock()
    }

    /** `n` events went by and left no trace. */
    twostate predicate Waited(n: nat)
      reads this
    {
      Clock() == old(Clock()) + n && request == old(request) && Disk() == old(Disk())
    }

    /** At most `n` events went by and left no trace. */
    twostate predicate Lingered(n: nat)
      reads this
    {
      old(Clock()) <= Clock() <= old(Clock()) + n && request == old(request) && Disk() == old(Disk())
    }

    /** A moment after this call began, up to which the server had not written since then. */
    twostate predicate Reached(new m: Moment)
      reads this
    {
      During(script, old(era), old(Clock()), Clock(), m)
    }

    /** Such a moment, and something happened after it. */
    twostate predicate Passed(new m: Moment)
      reads this
    {
      Within(script, old(era), old(Clock()), Clock(), m)
    }

    /** Within one era the disk is what other programs made of it. */
    twostate lemma Drifted()
      requires era == old(era) && Later()
      ensures Disk() == Drift(script, old(Clock()), Clock() - old(Clock()), old(Disk()))
    {
      DriftOn(script, era.start, old(since), since - old(since), era.disk);
    }

    /** The present is reached, if the server has not written. */
    twostate lemma Arrived()
      requires era == old(era) && Later()
      ensures Reached(Now())
    {
    }

    constructor (script: nat -> Event, disk: map<File, Stored>)
      ensures this.script == script && Disk() == disk
      ensures Clock() == 0 && request == Active && log == []
    {
      this.script := script;
      era, since := Era(0, disk), 0;
      request, log := Active, [];
    }

    /** Admit a new request. */
    method Admit()
      modifies this`request
      ensures request == Active
    {
      request := Active;
    }

    /** Let the outside world act once. */
    method Observe() returns (e: Event)
      modifies this`since, this`request
      ensures e == script(old(Clock())) && Clock() == old(Clock()) + 1
      ensures request == Deliver(old(request), e.signal) && OnlyInterrupted(old(request), request)
      ensures Disk() == Edited(old(Disk()), e.edit)
    {
      e := script(Clock());
      since := since + 1;
      request := Deliver(request, e.signal);
    }

    /** Replace a file: a new era begins. */
    method Write(file: File, text: Text)
      modifies this`era, this`since
      ensures Clock() == old(Clock()) && Disk() == old(Disk())[file := Stored(text, true)]
      ensures era == Era(Clock(), Disk())
    {
      era, since := Era(Clock(), Disk()[file := Stored(text, true)]), 0;
    }

    method Record(effect: Effect)
      modifies this`log
      ensures log == old(log) + [effect]
    {
      log := log + [effect];
    }

    /** Claim the commit point; false exactly when an interruption won. */
    method Commit() returns (won: bool)
      modifies this`since, this`request
      ensures won <==> request.Committed?
      ensures !won ==> request.IsCancelled()
      ensures old(request).Settled() ==> request == old(request)
      ensures Clock() == old(Clock()) + 1 && Disk() == Edited(old(Disk()), script(old(Clock())).edit)
      ensures request == Deliver(Deliver(old(request), script(old(Clock())).signal), Commits)
    {
      var _ := Observe();
      request := Deliver(request, Commits);
      won := request.Committed?;
    }
  }
}
