/** Sessions joining, leaving and closing under one project. */
module Sessions {
  import opened Outcomes
  import opened Checkpoints
  import opened Prover
  import opened Coherence
  import opened Requests
  import opened Hosts
  import opened Pet
  import opened Engine
  import opened Runtime
  import opened Publishing
  import opened Tools
  import opened Dispatching

  /** Give up whatever proof the session has; siblings are told if that found the prover lost. */
  method Retire(rt: ProjectRuntime, host: Host, s: Session)
    requires rt.Sound() && s in rt.sessions && host.request.Committed?
    modifies rt, rt.actor`process, rt.actor`epoch, rt.actor`silentLoss, host`since, host`request
    ensures rt.Sound() && host.request.Committed? && SameTrees(Cleared(old(rt.sessions), s), rt.sessions)
    ensures s in rt.sessions && rt.sessions[s] == old(rt.sessions)[s].Clear()
    ensures rt.Loose() <= old(rt.Loose()) && Onward(rt, host)
  {
    var lost := RetireProof(rt, host, s);
    if lost.value {
      rt.InvalidateProjectStates(s);
    } else {
      assert lost == Ok(false);
    }
  }

  /** A session without a proof leaves; nobody notices. */
  method Detach(rt: ProjectRuntime, s: Session) returns (book: Book)
    requires rt.Sound() && s in rt.sessions && rt.sessions[s].proof.None?
    modifies rt`sessions
    ensures rt.Sound() && rt.Loose() == old(rt.Loose())
    ensures book == old(rt.sessions)[s] && rt.sessions == old(rt.sessions) - {s} && WellFormed(book)
  {
    book := rt.sessions[s];
    assert WellFormed(book);
    SameProofsSameCoherence(rt.actor.rocq, rt.sessions, rt.sessions - {s}, rt.actor.process);
    rt.sessions := rt.sessions - {s};
  }

  /** The session gives up its proof and leaves. */
  method Resign(rt: ProjectRuntime, host: Host, s: Session) returns (book: Book)
    requires rt.Sound() && s in rt.sessions && host.request.Committed?
    modifies rt, rt.actor`process, rt.actor`epoch, rt.actor`silentLoss, host`since, host`request
    ensures rt.Sound() && host.request.Committed? && rt.sessions.Keys == old(rt.sessions.Keys) - {s}
    ensures book == old(rt.sessions)[s].Clear() && WellFormed(book)
    ensures rt.Loose() <= old(rt.Loose()) && Onward(rt, host)
  {
    Retire(rt, host, s);
    book := Detach(rt, s);
  }

  /** The session gives up its proof and stays, under the project's current view. */
  method Renew(rt: ProjectRuntime, host: Host, s: Session) returns (r: EngineResult<()>)
    requires rt.Sound() && s in rt.sessions && host.request.Committed?
    modifies rt, rt.actor`process, rt.actor`epoch, rt.actor`silentLoss, host`since, host`request
    ensures rt.Sound() && host.request.Committed? && rt.sessions.Keys == old(rt.sessions.Keys)
    ensures rt.sessions[s] == old(rt.sessions)[s].Clear()
    ensures rt.Loose() <= old(rt.Loose()) && Onward(rt, host)
  {
    Retire(rt, host, s);
    r := RefreshLayout(rt, host, s);
  }

  /** A session without a proof joins under the project's current view, which may have just changed. */
  method InstallStartView(rt: ProjectRuntime, host: Host, s: Session, book: Book) returns (r: EngineResult<()>)
    requires rt.Sound() && s !in rt.sessions && book.proof.None? && WellFormed(book)
    modifies rt, rt.actor`process, rt.actor`epoch, rt.actor`silentLoss, host`since, host`request
    ensures rt.Sound() && OnlyInterrupted(old(host.request), host.request)
    ensures r.Err? ==> rt.sessions == old(rt.sessions)
    ensures r.Ok? ==> rt.sessions.Keys == old(rt.sessions.Keys) + {s} && rt.sessions[s] == book
    ensures host.Clock() == old(host.Clock()) + 1 && host.Disk() == Edited(old(host.Disk()), host.script(old(host.Clock())).edit)
            && host.request == Deliver(old(host.request), host.script(old(host.Clock())).signal)
    ensures host.script(old(host.Clock())).layoutChanged == Ok(false) ==>
              r.Ok? && rt.sessions == old(rt.sessions)[s := book] && rt.artifacts == old(rt.artifacts)
              && rt.actor.process == old(rt.actor.process) && rt.actor.epoch == old(rt.actor.epoch)
    ensures rt.Loose() <= old(rt.Loose()) && Onward(rt, host)
  {
    var e := host.Observe();
    if e.layoutChanged.Err? { return Err(e.layoutChanged.error); }
    SameProofsSameCoherence(rt.actor.rocq, rt.sessions, rt.sessions[s := book], rt.actor.process);
    rt.sessions := rt.sessions[s := book];
    if e.layoutChanged.value {
      rt.artifacts := map[];
      rt.BeginEpoch(s);
    }
    r := Ok(());
  }

  /**
   * The last reference to a session is gone: no boundary reaches its book from now on. What it holds
   * is still exported, and held by nobody who is attached.
   */
  method Unlist(rt: ProjectRuntime, s: Session) returns (book: Book)
    requires rt.Sound() && s in rt.sessions
    modifies rt`sessions
    ensures rt.Sound() && book == old(rt.sessions)[s] && rt.sessions == old(rt.sessions) - {s}
    ensures rt.Loose() == old(rt.Loose()) + HandlesOf(book) && HandlesOf(book) !! old(rt.Loose())
  {
    book := rt.sessions[s];
    ghost var books := rt.sessions;
    LeftBooks(rt.actor.rocq, books, rt.actor.process, s);
    rt.sessions := rt.sessions - {s};
  }

  lemma LeftBooks(rocq: Rocq, books: map<Session, Book>, p: Option<Process>, s: Session)
    requires Coherent(rocq, books, p) && AllPublishable(rocq, books) && s in books
    ensures Coherent(rocq, books - {s}, p) && AllPublishable(rocq, books - {s})
    ensures Orphans(books - {s}, p) == Orphans(books, p) + HandlesOf(books[s]) && HandlesOf(books[s]) !! Orphans(books, p)
  {
    var cleared := books[s := books[s].Clear()];
    assert WellFormed(books[s]);
    ClearingOrphans(rocq, books, p, s);
    ShrinkKeepsCoherence(rocq, books, p, s, books[s].Clear());
    assert cleared - {s} == books - {s};
    assert AllWellFormed(books - {s}) by {
      assert forall t :: t in books - {s} ==> WellFormed(books[t]);
    }
    SameProofsSameCoherence(rocq, cleared, books - {s}, p);
    forall h: Handle | h in HandlesOf(books[s]) ensures Held(books, h) {
      HandlesAreHeld(books, s, h);
    }
  }

  /**
   * The closed session gives back what it held when its project is free. The release is best effort:
   * when it loses the prover nobody is told. And the identifiers it names may by now mean something
   * else: what is left is right exactly if no attached checkpoint holds one of them, or there is no
   * process, and if, when the process was lost, no attached checkpoint holds anything.
   */
  method GiveBack(rt: ProjectRuntime, host: Host, book: Book)
    requires rt.Sound()
    modifies rt.actor, host`since, host`request
    ensures rt.Valid() && OnlyInterrupted(old(host.request), host.request) && host.Later()
    ensures !rt.actor.silentLoss ==> rt.Sound()
    ensures rt.Sound() <==> if rt.actor.process.Some? then Unclaimed(rt.sessions, HandlesOf(book))
                            else old(rt.actor.process).Some? ==> forall h :: !Held(rt.sessions, h)
    ensures NoSwallowedLoss(host.script) && Unclaimed(rt.sessions, HandlesOf(book)) ==> rt.Sound()
    ensures rt.Loose() == if rt.actor.process.Some? then old(rt.Loose()) - HandlesOf(book) else {}
    ensures old(rt.actor.process).Some? && rt.actor.process.None? ==> host.script(old(host.Clock())).lostOnDrop
    ensures rt.actor.process.Some? ==> old(rt.actor.process).Some?
    ensures rt.actor.process.Some? ==>
              rt.actor.process == Some(old(rt.actor.process).value.(exported := Table(old(rt.actor.process)) - HandlesOf(book)))
    ensures old(rt.actor.epoch) <= rt.actor.epoch
    ensures rt.actor.epoch == old(rt.actor.epoch) ==> old(rt.Loose()) - HandlesOf(book) <= rt.Loose()
  {
    ghost var before := rt.actor.process;
    var states := CollectHandles(book);
    rt.actor.ReleaseOnDrop(host, states);
    GivenBack(rt.actor.rocq, rt.sessions, before, rt.actor.process, HandlesOf(book));
    BareHoldsNothing(rt.sessions);
    RobsMeansHeld(rt.sessions, states);
    if rt.actor.process.None? {
      rt.actor.silentLoss := rt.actor.silentLoss && !Bare(rt.sessions);
    } else {
      rt.actor.silentLoss := Robs(rt.sessions, states);
    }
  }

  /** No attached checkpoint holds any of these. */
  ghost predicate Unclaimed(books: map<Session, Book>, handles: set<Handle>) {
    forall h :: h in handles ==> !Held(books, h)
  }

  lemma GivenBack(rocq: Rocq, books: map<Session, Book>, p: Option<Process>, q: Option<Process>, gone: set<Handle>)
    requires Coherent(rocq, books, p)
    requires p.Some? && q.Some? ==> q == Some(p.value.(exported := p.value.exported - gone))
    requires p.None? ==> q.None?
    ensures q.Some? ==> (Coherent(rocq, books, q) <==> Unclaimed(books, gone)) && Orphans(books, q) == Orphans(books, p) - gone
    ensures q.None? ==> Orphans(books, q) == {}
    ensures q.None? ==> (Coherent(rocq, books, q) <==> (p.Some? ==> forall h :: !Held(books, h)))
  {
    if q.Some? {
      if Unclaimed(books, gone) {
        ReleaseKeepsCoherence(rocq, books, p, q, gone);
      } else {
        var h :| h in gone && Held(books, h);
        if Coherent(rocq, books, q) {
          HeldIsExported(rocq, books, q, h);
        }
      }
    } else {
      CoherentAfterLoss(rocq, books);
      if p.None? {
        forall h: Handle ensures !Held(books, h) {
          if Held(books, h) {
            HeldIsExported(rocq, books, p, h);
          }
        }
      }
    }
  }

  /** One of the identifiers is an attached checkpoint's. */
  predicate Robs(books: map<Session, Book>, states: seq<Handle>) {
    exists s | s in books :: books[s].proof.Some? &&
      exists c | c in books[s].proof.value.checkpoints ::
        books[s].proof.value.checkpoints[c].petState.Some? && books[s].proof.value.checkpoints[c].petState.value in states
  }

  lemma RobsMeansHeld(books: map<Session, Book>, states: seq<Handle>)
    ensures Robs(books, states) <==> !Unclaimed(books, Elements(states))
  {
    if Robs(books, states) {
      var s, c :| s in books && books[s].proof.Some? && c in books[s].proof.value.checkpoints
                  && books[s].proof.value.checkpoints[c].petState.Some? && books[s].proof.value.checkpoints[c].petState.value in states;
      var h := books[s].proof.value.checkpoints[c].petState.value;
      assert HandleAt(books, s, c) == Some(h);
      assert Held(books, h) && h in Elements(states);
    }
    if !Unclaimed(books, Elements(states)) {
      var h :| h in Elements(states) && Held(books, h);
      var s, c :| HandleAt(books, s, c) == Some(h);
      assert books[s].proof.value.checkpoints[c].petState == Some(h);
    }
  }
}
