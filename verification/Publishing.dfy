/** Giving up the project's epoch for a publication, and settling the session afterwards. */
module Publishing {
  import opened Outcomes
  import opened Sources
  import opened Requests
  import opened Checkpoints
  import opened Prover
  import opened Coherence
  import opened Hosts
  import opened Engine
  import opened Splicing
  import opened Writeback
  import opened Runtime

  /** What a publication that got as far as writing did. */
  datatype Publication = Publication(prepared: Prepared, outcome: Outcome, seal: Seal)

  /** Both looks at the source before the epoch is given up saw the bytes the proof was begun on. */
  predicate SourceHolds(script: nat -> Event, m: Moment, target: Target) {
    && Holds(script, m.clock, m.disk, target)
    && Seen(script(m.clock + 1), Edited(m.disk, script(m.clock).edit), target.file, target.source)
  }

  /** The moment the first write is tried: two events later. */
  function Writing(script: nat -> Event, m: Moment): Moment {
    Moment(m.clock + 2,
           Deliver(Deliver(m.request, script(m.clock).signal), script(m.clock + 1).signal),
           Edited(Edited(m.disk, script(m.clock).edit), script(m.clock + 1).edit))
  }

  /** The publication begun at `m` gets to its first write. */
  predicate Begins(script: nat -> Event, m: Moment, target: Target, fragments: seq<Text>) {
    SourceHolds(script, m, target) && target.soleOwner && Replacement(target.source, target, fragments).Ok?
  }

  /** And nothing stands in its way: the world keeps still, the write goes through, and the refreshed prover finds all well. */
  ghost predicate Unhindered(script: nat -> Event, rocq: Rocq, m: Moment, target: Target, fragments: seq<Text>) {
    && Begins(script, m, target, fragments)
    && Smooth(script, rocq, Writing(script, m), Prepared(target.file, target.source, Replacement(target.source, target, fragments).value),
              target.name, target.kind)
  }

  /** It then gets stuck: its rollback cannot write, and nothing was refreshed before that. */
  predicate Sticks(script: nat -> Event, m: Moment, target: Target, fragments: seq<Text>) {
    && Begins(script, m, target, fragments)
    && var w := Writing(script, m);
       Stuck(script, w.clock, w.request, w.disk, Prepared(target.file, target.source, Replacement(target.source, target, fragments).value))
  }

  /** The transaction is exactly for this target and these fragments. */
  predicate For(prepared: Prepared, target: Target, fragments: seq<Text>) {
    && target.soleOwner && prepared.file == target.file && prepared.original == target.source
    && Replacement(target.source, target, fragments) == Ok(prepared.replacement)
  }

  /**
   * The whole history of a completed publication whose first write was tried at `w`, after whatever
   * `before` holds: the write, and everything that was seen of it afterwards, until `to`.
   */
  ghost predicate Completed(script: nat -> Event, rocq: Rocq, w: Moment, before: seq<Effect>, after: seq<Effect>, to: nat, name: seq<string>,
                            kind: Kind, epoch: nat, done: Publication)
  {
    && SealedAfter(script, rocq, w.clock, w.request, w.disk, to, done.prepared, name, kind, done.seal)
    && after == before + [Wrote(done.prepared.file, done.prepared.original, done.prepared.replacement)]
                + Certificate(done.prepared, kind, epoch, done.seal.vet.report)
  }

  lemma CompletedLonger(script: nat -> Event, rocq: Rocq, w: Moment, before: seq<Effect>, after: seq<Effect>, mid: nat, to: nat, name: seq<string>,
                        kind: Kind, epoch: nat, done: Publication)
    requires mid <= to && Completed(script, rocq, w, before, after, mid, name, kind, epoch, done)
    ensures Completed(script, rocq, w, before, after, to, name, kind, epoch, done)
  {
    hide SealedAfter;
    SealedLonger(script, rocq, w.clock, w.request, w.disk, mid, to, done.prepared, name, kind, done.seal);
  }

  /** Look, look again and render; only then may the epoch be given up. */
  method LookTwice(host: Host, target: Target, fragments: seq<Text>) returns (r: EngineResult<Prepared>)
    requires target.soleOwner
    modifies host`since, host`request
    ensures OnlyInterrupted(old(host.request), host.request) && old(host.Clock()) < host.Clock()
    ensures var m := old(host.Now());
            && (r.Ok? <==> Begins(host.script, m, target, fragments))
            && (r.Ok? ==> For(r.value, target, fragments) && host.Now() == Writing(host.script, m))
            && (r.Err? ==> r.error == if SourceHolds(host.script, m, target) then Replacement(target.source, target, fragments).error
                                      else DeclarationChanged)
            && (r.Err? ==> !InvalidatesEpoch(r.error))
  {
    var valid := ValidateTarget(host, target);
    if valid.Err? { return Err(valid.error); }
    r := Prepare(host, target, fragments);
  }

  /**
   * Prepare first, give up every handle of the project second, write third. The handles are given
   * up exactly when the source was found unchanged twice and the new text could be rendered. If the
   * publication then gets stuck, the old process goes on exporting all of them; in every other case
   * nothing exported is left.
   */
  method PublishProof(rt: ProjectRuntime, host: Host, s: Session, target: Target, fragments: seq<Text>, ghost quiet: bool := false)
      returns (r: EngineResult<()>, ghost begun: Option<Publication>)
    requires rt.Sound() && s in rt.sessions && Publishable(rt.actor.rocq, target)
    requires quiet ==> rt.actor.IsUp() && Unhindered(host.script, rt.actor.rocq, host.Now(), target, fragments)
    modifies rt`sessions, rt.actor, host
    ensures rt.Sound() && OnlyInterrupted(old(host.request), host.request) && Onward(rt, host) && old(host.Clock()) < host.Clock()
    ensures var m := old(host.Now());
            && (begun.Some? <==> Begins(host.script, m, target, fragments))
            && (begun.None? ==> r == Err(if SourceHolds(host.script, m, target) then InvalidConfiguration else DeclarationChanged))
            && (Sticks(host.script, m, target, fragments) ==>
                  r == Err(InvalidConfiguration) && rt.actor.process == old(rt.actor.process)
                  && rt.Loose() == old(rt.Loose()) + AllHandles(old(rt.sessions)))
            && (begun.Some? && !Sticks(host.script, m, target, fragments) ==> rt.Loose() == {})
    ensures begun.None? ==> rt.sessions == old(rt.sessions) && rt.actor.process == old(rt.actor.process) && host.log == old(host.log)
    ensures begun.Some? ==> rt.sessions == InvalidateAll(old(rt.sessions))
                            && For(begun.value.prepared, target, fragments)
                            && WroteOnly(old(host.log), host.log, begun.value.prepared, begun.value.outcome)
    ensures r.Ok? ==> begun.Some? && Completed(host.script, rt.actor.rocq, Writing(host.script, old(host.Now())), old(host.log), host.log, host.Clock(),
                                               target.name, target.kind, rt.actor.epoch, begun.value)
    ensures r.Err? && r.error.RequestCancelled? ==> host.request.IsCancelled()
    ensures quiet ==> r.Ok?
  {
    hide SealedAfter, Smooth;
    begun := None;
    RenderingErrors(rt.actor.rocq, target, fragments);
    var prepared := LookTwice(host, target, fragments);
    if prepared.Err? { return Err(prepared.error), begun; }
    r, begun := GiveUpAndWrite(rt, host, s, prepared.value, target.name, target.kind, quiet);
  }

  /** Forget every handle, then write. */
  method GiveUpAndWrite(rt: ProjectRuntime, host: Host, s: Session, p: Prepared, name: seq<string>, kind: Kind, ghost quiet: bool)
      returns (r: EngineResult<()>, ghost begun: Option<Publication>)
    requires rt.Sound() && s in rt.sessions
    requires quiet ==> rt.actor.IsUp() && Smooth(host.script, rt.actor.rocq, host.Now(), p, name, kind)
    modifies rt`sessions, rt.actor, host
    ensures rt.Sound() && OnlyInterrupted(old(host.request), host.request) && Onward(rt, host) && old(host.Clock()) < host.Clock()
    ensures begun.Some? && begun.value.prepared == p && rt.sessions == InvalidateAll(old(rt.sessions))
    ensures WroteOnly(old(host.log), host.log, p, begun.value.outcome)
    ensures r.Ok? ==> Completed(host.script, rt.actor.rocq, old(host.Now()), old(host.log), host.log, host.Clock(),
                                name, kind, rt.actor.epoch, begun.value)
    ensures r.Err? && r.error.RequestCancelled? ==> host.request.IsCancelled()
    ensures Stuck(host.script, old(host.Clock()), old(host.request), old(host.Disk()), p) ==>
              r == Err(InvalidConfiguration) && rt.actor.process == old(rt.actor.process)
              && rt.Loose() == old(rt.Loose()) + AllHandles(old(rt.sessions))
    ensures !Stuck(host.script, old(host.Clock()), old(host.request), old(host.Disk()), p) ==> rt.Loose() == {}
    ensures quiet ==> r.Ok?
  {
    hide SealedAfter, Smooth, Stuck, WroteOnly, RolledBack, GivesUpEarly, Coherent, AllPublishable, Certificate, First, Landing;
    ForgettingOrphans(rt.actor.rocq, rt.sessions, rt.actor.process);
    rt.InvalidateProjectStates(s);
    var outcome; ghost var seal, at;
    r, outcome, seal, at := Publish(rt.actor, host, p, name, kind, quiet);
    begun := Some(Publication(p, outcome, seal));
    NobodyHolds(rt, old(rt.sessions));
  }

  /** While no checkpoint holds a handle, no loss of the prover can matter to one. */
  method NobodyHolds(rt: ProjectRuntime, ghost was: map<Session, Book>)
    requires rt.actor.Valid() && AllWellFormed(was) && AllPublishable(rt.actor.rocq, was) && rt.sessions == InvalidateAll(was)
    modifies rt.actor`silentLoss
    ensures rt.Sound() && rt.Loose() == Table(rt.actor.process).Keys
  {
    InvalidatedIsCoherent(rt.actor.rocq, was, rt.actor.process);
    SameTreesPublishable(rt.actor.rocq, was, rt.sessions);
    rt.actor.silentLoss := false;
  }

  /** The session's proof is gone, released or not. */
  function Cleared(books: map<Session, Book>, s: Session): map<Session, Book>
    requires s in books
  {
    books[s := books[s].Clear()]
  }

  /** The publication begun at `m` leaves exported states behind that nobody owns. */
  predicate Spills(script: nat -> Event, m: Moment, target: Target, fragments: seq<Text>) {
    !SourceHolds(script, m, target) || Sticks(script, m, target, fragments)
  }

  /**
   * Exactly which: the session's own when its source was found changed before the epoch was given
   * up, everybody's when the publication got stuck, none otherwise.
   */
  ghost function Spilled(script: nat -> Event, m: Moment, books: map<Session, Book>, s: Session, target: Target, fragments: seq<Text>): set<Handle>
    requires s in books
  {
    if !SourceHolds(script, m, target) then HandlesOf(books[s])
    else if Sticks(script, m, target, fragments) then AllHandles(books)
    else {}
  }

  /**
   * Publish and settle the session: a published proof, or one whose source moved away, is cleared;
   * any other failure keeps it for another attempt. `Spilled` is exactly what is left behind.
   */
  method Conclude(rt: ProjectRuntime, host: Host, s: Session, id: Id, target: Target, fragments: seq<Text>, ghost quiet: bool := false)
      returns (r: EngineResult<()>, kept: Option<Id>, ghost begun: Option<Publication>)
    requires rt.Sound() && s in rt.sessions && rt.sessions[s].proof.Some? && rt.sessions[s].proof.value.target == target
    requires quiet ==> rt.actor.IsUp() && Unhindered(host.script, rt.actor.rocq, host.Now(), target, fragments)
    modifies rt, rt.actor, host
    ensures rt.Sound() && OnlyInterrupted(old(host.request), host.request) && Onward(rt, host) && old(host.Clock()) < host.Clock()
    ensures kept == if r.Ok? || r.error == DeclarationChanged then None else Some(id)
    ensures rt.artifacts == Remembering(host.script(host.Clock() - 1), old(rt.artifacts), target.file, r.Ok?)
    ensures var books := if begun.Some? then InvalidateAll(old(rt.sessions)) else old(rt.sessions);
            rt.sessions == if kept.None? then Cleared(books, s) else books
    ensures var m := old(host.Now());
            && (begun.Some? <==> Begins(host.script, m, target, fragments))
            && (begun.None? && kept.None? <==> !SourceHolds(host.script, m, target))
            && rt.Loose() <= old(rt.Loose()) + Spilled(host.script, m, old(rt.sessions), s, target, fragments)
            && (Spills(host.script, m, target, fragments) ==>
                  rt.Loose() == old(rt.Loose()) + Spilled(host.script, m, old(rt.sessions), s, target, fragments))
    ensures begun.None? ==> r.Err? && host.log == old(host.log)
    ensures begun.Some? ==> For(begun.value.prepared, target, fragments)
                            && WroteOnly(old(host.log), host.log, begun.value.prepared, begun.value.outcome)
    ensures r.Ok? ==> begun.Some? && Completed(host.script, rt.actor.rocq, Writing(host.script, old(host.Now())), old(host.log), host.log, host.Clock(),
                                               target.name, target.kind, rt.actor.epoch, begun.value)
    ensures r.Err? && r.error.RequestCancelled? ==> host.request.IsCancelled()
    ensures quiet ==> r.Ok?
  {
    hide Completed, Smooth, Stuck, WroteOnly;
    r, begun := PublishProof(rt, host, s, target, fragments, quiet);
    ghost var mid := host.Clock();
    Remember(rt, host, target.file, r.Ok?);
    if r.Ok? {
      CompletedLonger(host.script, rt.actor.rocq, Writing(host.script, old(host.Now())), old(host.log), host.log, mid, host.Clock(),
                      target.name, target.kind, rt.actor.epoch, begun.value);
    }
    kept := Some(id);
    if r.Ok? || r.error == DeclarationChanged {
      if begun.Some? {
        NothingForgotten(old(rt.sessions), s);
      }
      Clear(rt, s);
      kept := None;
    }
  }

  /** What is remembered of a file after a publication: its new fingerprint if it could be read, after a failed one nothing. */
  function Remembering(e: Event, artifacts: map<File, Fingerprint>, file: File, published: bool): map<File, Fingerprint> {
    if published && e.fingerprint.Ok? then artifacts[file := e.fingerprint.value] else artifacts - {file}
  }

  method Remember(rt: ProjectRuntime, host: Host, file: File, published: bool)
    modifies rt`artifacts, host`since, host`request
    ensures OnlyInterrupted(old(host.request), host.request) && host.Later()
    ensures published ==> host.Clock() == old(host.Clock()) + 1
    ensures rt.artifacts == Remembering(host.script(old(host.Clock())), old(rt.artifacts), file, published)
  {
    var fingerprint: EngineResult<Fingerprint> := Err(NotFound);
    if published {
      fingerprint := ReadFingerprint(host);
    }
    rt.artifacts := if fingerprint.Ok? then rt.artifacts[file := fingerprint.value] else rt.artifacts - {file};
  }

  lemma NothingForgotten(books: map<Session, Book>, s: Session)
    requires s in books
    ensures HandlesOf(InvalidateAll(books)[s]) == {}
  {
  }

  /** Drop the session's proof without a word to the prover. */
  method Clear(rt: ProjectRuntime, s: Session)
    requires rt.Sound() && s in rt.sessions
    modifies rt`sessions
    ensures rt.Sound() && rt.sessions == Cleared(old(rt.sessions), s)
    ensures rt.Loose() == old(rt.Loose()) + HandlesOf(old(rt.sessions)[s])
  {
    ClearingOrphans(rt.actor.rocq, rt.sessions, rt.actor.process, s);
    assert WellFormed(rt.sessions[s]);
    ShrinkKeepsCoherence(rt.actor.rocq, rt.sessions, rt.actor.process, s, rt.sessions[s].Clear());
    rt.sessions := rt.sessions[s := rt.sessions[s].Clear()];
  }
}
