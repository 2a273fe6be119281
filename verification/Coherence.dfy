/**
 * The cache-coherence invariant between checkpoint books and the live prover process, stated on
 * values, with one small lemma for every way an operation changes either side.
 */
module Coherence {
  import opened Outcomes
  import opened Checkpoints
  import opened Prover

  type Session = nat

  /** A live child process: what it has loaded and the identifiers it currently exports. */
  datatype Process = Process(env: Environment, ready: bool, exported: map<Handle, RocqState>, nextId: nat)

  /** New identifiers are unused, and nothing is exported before the workspace was admitted. */
  ghost predicate Fresh(p: Option<Process>) {
    p.Some? ==>
      && (forall h :: h in p.value.exported ==> h < p.value.nextId)
      && (!p.value.ready ==> p.value.exported == map[])
  }

  function Table(p: Option<Process>): map<Handle, RocqState> {
    if p.Some? then p.value.exported else map[]
  }

  /** What the prover has loaded, if there is one. */
  function Loaded(p: Option<Process>): Option<Environment> {
    if p.Some? then Some(p.value.env) else None
  }

  /** Everything still alive in `p` is alive in `q`, which exports `extra` on top of it. */
  ghost predicate Grown(p: Option<Process>, q: Option<Process>, extra: map<Handle, RocqState>) {
    && (p.Some? ==> q.Some? && q.value.env == p.value.env)
    && (extra.Keys != {} ==> q.Some?)
    && extra.Keys !! Table(p).Keys
    && Table(q) == Table(p) + extra
  }

  ghost predicate Same(p: Option<Process>, q: Option<Process>) {
    Grown(p, q, map[])
  }

  function HandleAt(books: map<Session, Book>, s: Session, c: Id): Option<Handle> {
    if s in books && books[s].proof.Some? && c in books[s].proof.value.checkpoints
    then books[s].proof.value.checkpoints[c].petState
    else None
  }

  /** A node with a handle: exported here and now, on top of a parent that has one too. */
  ghost predicate Backed(rocq: Rocq, proof: ProofSession, c: Id, p: Option<Process>)
    requires c in proof.checkpoints && proof.checkpoints[c].petState.Some?
  {
    var node := proof.checkpoints[c];
    var h := node.petState.value;
    && h in Table(p)
    && p.Some?
    && rocq.Safe(p.value.exported[h])
    && rocq.finished(p.value.exported[h]) == node.finished
    && rocq.view(p.value.exported[h]) == node.view
    && (match node.parent
        case None => rocq.Root(p.value.env, proof.target) == Some(p.value.exported[h])
        case Some(q) =>
          && q in proof.checkpoints
          && proof.checkpoints[q].petState.Some?
          && proof.checkpoints[q].petState.value in p.value.exported
          && node.acceptedInput.Some?
          && rocq.step(p.value.exported[proof.checkpoints[q].petState.value], node.acceptedInput.value)
             == Accepted(p.value.exported[h]))
  }

  ghost predicate AllBacked(rocq: Rocq, books: map<Session, Book>, p: Option<Process>) {
    forall s, c :: HandleAt(books, s, c).Some? ==> Backed(rocq, books[s].proof.value, c, p)
  }

  /** No two checkpoints, in one session or two, own the same handle. */
  ghost predicate Exclusive(books: map<Session, Book>) {
    forall s, c, t, d ::
      HandleAt(books, s, c).Some? && HandleAt(books, s, c) == HandleAt(books, t, d) ==> s == t && c == d
  }

  ghost predicate AllWellFormed(books: map<Session, Book>) {
    forall s {:trigger WellFormed(books[s])} :: s in books ==> WellFormed(books[s])
  }

  ghost predicate Coherent(rocq: Rocq, books: map<Session, Book>, p: Option<Process>) {
    AllWellFormed(books) && AllBacked(rocq, books, p) && Exclusive(books)
  }

  // ---------------------------------------------------------------- what coherence means

  /**
   * Cache refines replay: a handle held anywhere denotes exactly what running the accepted
   * fragments from the root would produce in the current environment, and the stored completion
   * bit and view are those of that state. A cached and a rebuilt checkpoint cannot differ.
   */
  lemma {:induction false} CacheRefinesReplay(rocq: Rocq, books: map<Session, Book>, p: Option<Process>, s: Session, c: Id)
    requires Coherent(rocq, books, p)
    requires HandleAt(books, s, c).Some?
    ensures p.Some? && HandleAt(books, s, c).value in p.value.exported
    ensures Tree(books[s].proof.value)
    ensures var st := p.value.exported[HandleAt(books, s, c).value];
            && rocq.Replay(p.value.env, books[s].proof.value.target, Fragments(books[s].proof.value, c)) == Some(st)
            && books[s].proof.value.checkpoints[c].finished == rocq.finished(st)
            && books[s].proof.value.checkpoints[c].view == rocq.view(st)
    decreases c
  {
    var proof := books[s].proof.value;
    assert WellFormed(books[s]);
    assert Backed(rocq, proof, c, p);
    match proof.checkpoints[c].parent
    case None =>
    case Some(q) =>
      assert HandleAt(books, s, q).Some?;
      CacheRefinesReplay(rocq, books, p, s, q);
      var root := rocq.Root(p.value.env, proof.target).value;
      rocq.RunAppend(root, Fragments(proof, q), proof.checkpoints[c].acceptedInput.value);
  }

  /** Live handles are closed under parent, all the way to the root. */
  lemma {:induction false} LiveClosedUnderPath(rocq: Rocq, books: map<Session, Book>, p: Option<Process>, s: Session, c: Id, i: nat)
    requires Coherent(rocq, books, p)
    requires HandleAt(books, s, c).Some?
    requires Tree(books[s].proof.value) && i < |Path(books[s].proof.value, c)|
    ensures HandleAt(books, s, Path(books[s].proof.value, c)[i]).Some?
    decreases c
  {
    var proof := books[s].proof.value;
    assert Backed(rocq, proof, c, p);
    if i < |Path(proof, c)| - 1 {
      var q := proof.checkpoints[c].parent.value;
      assert HandleAt(books, s, q).Some?;
      LiveClosedUnderPath(rocq, books, p, s, q, i);
    }
  }

  /** So the nodes of a path that lack a handle are exactly a suffix of it. */
  lemma MissingIsASuffix(rocq: Rocq, books: map<Session, Book>, p: Option<Process>, s: Session, c: Id, i: nat, j: nat)
    requires Coherent(rocq, books, p)
    requires s in books && books[s].proof.Some? && c in books[s].proof.value.checkpoints
    requires Tree(books[s].proof.value) && i <= j < |Path(books[s].proof.value, c)|
    requires HandleAt(books, s, Path(books[s].proof.value, c)[i]).None?
    ensures HandleAt(books, s, Path(books[s].proof.value, c)[j]).None?
  {
    var proof := books[s].proof.value;
    var d := Path(proof, c)[j];
    if HandleAt(books, s, d).Some? {
      PathPrefix(proof, c, j);
      LiveClosedUnderPath(rocq, books, p, s, d, i);
    }
  }

  // ---------------------------------------------------------------- changes that keep it

  /** The prover exports more, or is started with nothing held: nobody notices. */
  lemma GrowthKeepsCoherence(rocq: Rocq, books: map<Session, Book>, p: Option<Process>, q: Option<Process>, extra: map<Handle, RocqState>)
    requires Coherent(rocq, books, p) && Grown(p, q, extra)
    ensures Coherent(rocq, books, q)
  {
    forall s, c | HandleAt(books, s, c).Some?
      ensures Backed(rocq, books[s].proof.value, c, q)
    {
      assert Backed(rocq, books[s].proof.value, c, p);
    }
  }

  ghost predicate Held(books: map<Session, Book>, h: Handle) {
    exists s, c :: HandleAt(books, s, c) == Some(h)
  }

  /** Handles nobody holds may be released. */
  lemma ReleaseKeepsCoherence(rocq: Rocq, books: map<Session, Book>, p: Option<Process>, q: Option<Process>, gone: set<Handle>)
    requires Coherent(rocq, books, p)
    requires p.Some? && q == Some(p.value.(exported := p.value.exported - gone))
    requires forall h :: h in gone ==> !Held(books, h)
    ensures Coherent(rocq, books, q)
  {
    forall s, c | HandleAt(books, s, c).Some?
      ensures Backed(rocq, books[s].proof.value, c, q)
    {
      var proof := books[s].proof.value;
      assert Backed(rocq, proof, c, p);
      assert HandleAt(books, s, c) == Some(proof.checkpoints[c].petState.value);
      if proof.checkpoints[c].parent.Some? {
        var d := proof.checkpoints[c].parent.value;
        assert HandleAt(books, s, d) == Some(proof.checkpoints[d].petState.value);
      }
    }
  }

  function InvalidateAll(books: map<Session, Book>): map<Session, Book> {
    map s | s in books :: books[s].Invalidate()
  }

  ghost predicate SameTrees(a: map<Session, Book>, b: map<Session, Book>) {
    && a.Keys == b.Keys
    && forall s :: s in a ==> SameTree(a[s], b[s])
  }

  /** After invalidation the process may be anything at all, and no tree has changed. */
  lemma InvalidatedIsCoherent(rocq: Rocq, books: map<Session, Book>, p: Option<Process>)
    requires AllWellFormed(books)
    ensures Coherent(rocq, InvalidateAll(books), p)
    ensures SameTrees(books, InvalidateAll(books))
    ensures forall h :: !Held(InvalidateAll(books), h)
  {
    var after := InvalidateAll(books);
    forall s | s in books
      ensures WellFormed(after[s]) && SameTree(books[s], after[s])
      ensures forall c :: HandleAt(after, s, c).None?
    {
      InvalidateKeepsTree(books[s]);
    }
    assert forall s, c :: HandleAt(after, s, c).None?;
  }

  lemma InvalidateKeepsTree(b: Book)
    requires WellFormed(b)
    ensures WellFormed(b.Invalidate()) && SameTree(b, b.Invalidate())
    ensures b.Invalidate().proof.Some? ==>
      forall c :: c in b.Invalidate().proof.value.checkpoints ==> b.Invalidate().proof.value.checkpoints[c].petState.None?
  {
    assert b.Invalidate() == Apply(b, DoInvalidate);
    OneCommandKeepsTheTree(b, DoInvalidate);
  }

  /** `after` is `before` with node `c` put in place, holding `h`. */
  ghost predicate Installed(before: Book, after: Book, c: Id, h: Handle) {
    && after.proof.Some?
    && c in after.proof.value.checkpoints
    && after.proof.value.checkpoints[c].petState == Some(h)
    && (match before.proof
        case None => after.proof.value.checkpoints.Keys == {c}
        case Some(p) =>
          && after.proof.value.target == p.target
          && after.proof.value.checkpoints == p.checkpoints[c := after.proof.value.checkpoints[c]]
          && (c in p.checkpoints ==> p.checkpoints[c].petState.None?))
  }

  /**
   * Giving a fresh handle to one node: a begun root, a committed child and a replayed node are all
   * this change.
   */
  lemma InstallKeepsCoherence(rocq: Rocq, books: map<Session, Book>, p: Option<Process>, s: Session, after: Book, c: Id, h: Handle)
    requires p.Some? && h in p.value.exported
    requires Coherent(rocq, books, p) && !Held(books, h)
    requires s in books && WellFormed(after) && Installed(books[s], after, c, h)
    requires Backed(rocq, after.proof.value, c, p)
    ensures Coherent(rocq, books[s := after], p)
  {
    InstallKeepsBacked(rocq, books, p, s, after, c, h);
    InstallKeepsExclusive(books, s, after, c, h);
  }

  lemma InstallKeepsBacked(rocq: Rocq, books: map<Session, Book>, p: Option<Process>, s: Session, after: Book, c: Id, h: Handle)
    requires AllBacked(rocq, books, p)
    requires s in books && Installed(books[s], after, c, h)
    requires Backed(rocq, after.proof.value, c, p)
    ensures AllBacked(rocq, books[s := after], p)
  {
    var now := books[s := after];
    forall t, d | HandleAt(now, t, d).Some?
      ensures Backed(rocq, now[t].proof.value, d, p)
    {
      if t != s || d != c {
        assert HandleAt(books, t, d).Some?;
        BackedElsewhere(rocq, books[t].proof.value, now[t].proof.value, c, d, p);
      }
    }
  }

  /** A node is not disturbed by another node gaining a handle. */
  lemma BackedElsewhere(rocq: Rocq, before: ProofSession, after: ProofSession, c: Id, d: Id, p: Option<Process>)
    requires d in before.checkpoints && before.checkpoints[d].petState.Some?
    requires Backed(rocq, before, d, p)
    requires d in after.checkpoints && after.checkpoints[d] == before.checkpoints[d]
    requires after == before ||
             (after.target == before.target && c in after.checkpoints
              && after.checkpoints == before.checkpoints[c := after.checkpoints[c]]
              && (c in before.checkpoints ==> before.checkpoints[c].petState.None?))
    ensures Backed(rocq, after, d, p)
  {
  }

  lemma InstallKeepsExclusive(books: map<Session, Book>, s: Session, after: Book, c: Id, h: Handle)
    requires Exclusive(books) && !Held(books, h)
    requires s in books && Installed(books[s], after, c, h)
    ensures Exclusive(books[s := after])
  {
    var now := books[s := after];
    forall t, d | t != s || d != c ensures HandleAt(now, t, d) == HandleAt(books, t, d) != Some(h) {
    }
  }

  /** A book that drops its proof, or only moves its selection, keeps everyone coherent. */
  lemma ShrinkKeepsCoherence(rocq: Rocq, books: map<Session, Book>, p: Option<Process>, s: Session, after: Book)
    requires Coherent(rocq, books, p)
    requires s in books && WellFormed(after)
    requires after.proof.None? ||
             (books[s].proof.Some? && after.proof.value.target == books[s].proof.value.target
              && after.proof.value.checkpoints == books[s].proof.value.checkpoints)
    ensures Coherent(rocq, books[s := after], p)
    ensures forall h :: Held(books[s := after], h) ==> Held(books, h)
  {
    var now := books[s := after];
    forall t, d | HandleAt(now, t, d).Some?
      ensures Backed(rocq, now[t].proof.value, d, p) && HandleAt(now, t, d) == HandleAt(books, t, d)
    {
      assert HandleAt(books, t, d).Some?;
      assert Backed(rocq, books[t].proof.value, d, p);
    }
  }

  // ---------------------------------------------------------------- ownership of exported identifiers

  /** Exported identifiers that no checkpoint owns. */
  ghost function Orphans(books: map<Session, Book>, p: Option<Process>): set<Handle> {
    set h | h in Table(p) && !Held(books, h)
  }

  ghost function HandlesOf(b: Book): set<Handle> {
    if b.proof.None? then {}
    else set c | c in b.proof.value.checkpoints && b.proof.value.checkpoints[c].petState.Some?
           :: b.proof.value.checkpoints[c].petState.value
  }

  lemma HandlesAreHeld(books: map<Session, Book>, s: Session, h: Handle)
    requires s in books && h in HandlesOf(books[s])
    ensures Held(books, h)
  {
    var c :| c in books[s].proof.value.checkpoints && books[s].proof.value.checkpoints[c].petState == Some(h);
    assert HandleAt(books, s, c) == Some(h);
  }

  /** A call that left the prover's table alone changed neither coherence nor ownership. */
  lemma SameKeepsCoherence(rocq: Rocq, books: map<Session, Book>, p: Option<Process>, q: Option<Process>)
    requires Coherent(rocq, books, p) && Same(p, q)
    ensures Coherent(rocq, books, q) && Orphans(books, q) == Orphans(books, p)
  {
    GrowthKeepsCoherence(rocq, books, p, q, map[]);
  }

  /**
   * One new state exported and adopted by one node that had none: coherent again, and exactly the
   * same identifiers are without an owner.
   */
  lemma AdoptKeepsCoherence(rocq: Rocq, books: map<Session, Book>, p: Option<Process>, q: Option<Process>,
                            s: Session, after: Book, c: Id, h: Handle, st: RocqState)
    requires Coherent(rocq, books, p) && Grown(p, q, map[h := st])
    requires s in books && WellFormed(after) && Installed(books[s], after, c, h)
    requires Backed(rocq, after.proof.value, c, q)
    ensures Coherent(rocq, books[s := after], q)
    ensures Orphans(books[s := after], q) == Orphans(books, p)
  {
    assert h in map[h := st];
    if Held(books, h) {
      HeldIsExported(rocq, books, p, h);
    }
    GrowthKeepsCoherence(rocq, books, p, q, map[h := st]);
    InstallKeepsCoherence(rocq, books, q, s, after, c, h);
    InstallKeepsHeld(books, s, after, c, h);
  }

  lemma HeldIsExported(rocq: Rocq, books: map<Session, Book>, p: Option<Process>, h: Handle)
    requires Coherent(rocq, books, p) && Held(books, h)
    ensures h in Table(p)
  {
    var s, c :| HandleAt(books, s, c) == Some(h);
    assert Backed(rocq, books[s].proof.value, c, p);
  }

  lemma InstallKeepsHeld(books: map<Session, Book>, s: Session, after: Book, c: Id, h: Handle)
    requires s in books && Installed(books[s], after, c, h)
    ensures forall g :: Held(books[s := after], g) <==> Held(books, g) || g == h
  {
    var now := books[s := after];
    assert HandleAt(now, s, c) == Some(h);
    forall g: Handle | Held(books, g) ensures Held(now, g) {
      var t, d :| HandleAt(books, t, d) == Some(g);
      assert HandleAt(now, t, d) == Some(g);
    }
    forall g: Handle | Held(now, g) && g != h ensures Held(books, g) {
      var t, d :| HandleAt(now, t, d) == Some(g);
      assert HandleAt(books, t, d) == Some(g);
    }
  }

  /** A book cleared without a release: what it held is now exported and owned by nobody. */
  lemma ClearingOrphans(rocq: Rocq, books: map<Session, Book>, p: Option<Process>, s: Session)
    requires Coherent(rocq, books, p) && s in books
    ensures Orphans(books[s := books[s].Clear()], p) == Orphans(books, p) + HandlesOf(books[s])
  {
    var now := books[s := books[s].Clear()];
    forall h: Handle ensures Held(now, h) <==> Held(books, h) && h !in HandlesOf(books[s]) {
      if Held(now, h) {
        var t, c :| HandleAt(now, t, c) == Some(h);
        assert HandleAt(books, t, c) == Some(h);
        if h in HandlesOf(books[s]) {
          OwnedBy(books, s, t, c, h);
        }
      }
      if Held(books, h) && h !in HandlesOf(books[s]) {
        var t, c :| HandleAt(books, t, c) == Some(h);
        assert HandleAt(now, t, c) == Some(h);
      }
    }
    forall h: Handle | h in HandlesOf(books[s]) ensures h in Table(p) {
      HandlesAreHeld(books, s, h);
      HeldIsExported(rocq, books, p, h);
    }
  }

  lemma OwnedBy(books: map<Session, Book>, s: Session, t: Session, c: Id, h: Handle)
    requires Exclusive(books) && s in books && h in HandlesOf(books[s]) && HandleAt(books, t, c) == Some(h)
    ensures t == s
  {
    var d :| d in books[s].proof.value.checkpoints && books[s].proof.value.checkpoints[d].petState == Some(h);
    assert HandleAt(books, s, d) == Some(h);
  }

  /** A book cleared and everything it held released: coherent, and nobody lost anything. */
  lemma RetireKeepsCoherence(rocq: Rocq, books: map<Session, Book>, p: Option<Process>, q: Option<Process>, s: Session)
    requires Coherent(rocq, books, p) && s in books && p.Some?
    requires q == Some(p.value.(exported := p.value.exported - HandlesOf(books[s])))
    ensures Coherent(rocq, books[s := books[s].Clear()], q)
    ensures Orphans(books[s := books[s].Clear()], q) == Orphans(books, p)
  {
    var now := books[s := books[s].Clear()];
    assert WellFormed(books[s]);
    ShrinkKeepsCoherence(rocq, books, p, s, books[s].Clear());
    ClearingOrphans(rocq, books, p, s);
    forall h: Handle | h in HandlesOf(books[s]) ensures !Held(now, h) && Held(books, h) {
      HandlesAreHeld(books, s, h);
      assert h in Orphans(now, p);
    }
    ReleaseKeepsCoherence(rocq, now, p, q, HandlesOf(books[s]));
  }

  /** The same proofs under the same sessions, whatever sessions without one come and go. */
  lemma SameProofsSameCoherence(rocq: Rocq, books: map<Session, Book>, now: map<Session, Book>, p: Option<Process>)
    requires Coherent(rocq, books, p) && AllWellFormed(now)
    requires forall s :: s in books && books[s].proof.Some? ==> s in now && now[s].proof == books[s].proof
    requires forall s :: s in now && now[s].proof.Some? ==> s in books && books[s].proof == now[s].proof
    ensures Coherent(rocq, now, p) && Orphans(now, p) == Orphans(books, p)
  {
    assert forall s: Session, c: Id :: HandleAt(now, s, c) == HandleAt(books, s, c);
    forall s, c | HandleAt(now, s, c).Some? ensures Backed(rocq, now[s].proof.value, c, p) {
      assert HandleAt(books, s, c).Some?;
    }
    forall h: Handle ensures Held(now, h) <==> Held(books, h) {
      if Held(books, h) {
        var s, c :| HandleAt(books, s, c) == Some(h);
        assert HandleAt(now, s, c) == Some(h);
      }
      if Held(now, h) {
        var s, c :| HandleAt(now, s, c) == Some(h);
        assert HandleAt(books, s, c) == Some(h);
      }
    }
  }

  /** After a loss nobody heard of, the books are right exactly when nobody holds anything. */
  lemma CoherentAfterLoss(rocq: Rocq, books: map<Session, Book>)
    requires AllWellFormed(books)
    ensures Coherent(rocq, books, None) <==> forall h :: !Held(books, h)
  {
    if Coherent(rocq, books, None) {
      forall h: Handle ensures !Held(books, h) {
        if Held(books, h) {
          HeldIsExported(rocq, books, None, h);
        }
      }
    } else if forall h :: !Held(books, h) {
      forall s: Session, c: Id ensures HandleAt(books, s, c).None? {
        if HandleAt(books, s, c).Some? {
          assert Held(books, HandleAt(books, s, c).value);
        }
      }
    }
  }

  /** No checkpoint of any session has a handle. */
  predicate Bare(books: map<Session, Book>) {
    forall s | s in books :: books[s].proof.Some? ==>
      forall c | c in books[s].proof.value.checkpoints :: books[s].proof.value.checkpoints[c].petState.None?
  }

  lemma BareHoldsNothing(books: map<Session, Book>)
    ensures Bare(books) <==> forall h :: !Held(books, h)
  {
    if !Bare(books) {
      var s, c :| s in books && books[s].proof.Some? && c in books[s].proof.value.checkpoints
                  && books[s].proof.value.checkpoints[c].petState.Some?;
      assert HandleAt(books, s, c).Some?;
      assert Held(books, HandleAt(books, s, c).value);
    }
  }

  // ---------------------------------------------------------------- what the open proofs are about

  /** Every open proof's target can be published without harm to its neighbours. */
  ghost predicate AllPublishable(rocq: Rocq, books: map<Session, Book>) {
    forall s {:trigger Publishable(rocq, books[s].proof.value.target)} ::
      s in books && books[s].proof.Some? ==> Publishable(rocq, books[s].proof.value.target)
  }

  lemma SameTreesPublishable(rocq: Rocq, a: map<Session, Book>, b: map<Session, Book>)
    requires SameTrees(a, b) && AllPublishable(rocq, a)
    ensures AllPublishable(rocq, b)
  {
    forall s | s in b && b[s].proof.Some? ensures Publishable(rocq, b[s].proof.value.target) {
      assert SameTree(a[s], b[s]);
    }
  }

  /** Forgetting every handle without ending the process leaves all of them behind. */
  lemma ForgettingOrphans(rocq: Rocq, books: map<Session, Book>, p: Option<Process>)
    requires Coherent(rocq, books, p)
    ensures Orphans(InvalidateAll(books), p) == Table(p).Keys == Orphans(books, p) + AllHandles(books)
  {
    InvalidatedIsCoherent(rocq, books, p);
    forall h: Handle | h in AllHandles(books) ensures h in Table(p) && Held(books, h) {
      var s :| s in books && h in HandlesOf(books[s]);
      HandlesAreHeld(books, s, h);
      HeldIsExported(rocq, books, p, h);
    }
    forall h: Handle | Held(books, h) ensures h in AllHandles(books) {
      var s, d :| HandleAt(books, s, d) == Some(h);
      assert h in HandlesOf(books[s]);
    }
  }

  /** Everything any checkpoint of any session holds. */
  ghost function AllHandles(books: map<Session, Book>): set<Handle> {
    set s, h | s in books && h in HandlesOf(books[s]) :: h
  }

  lemma NothingLeftToForget(books: map<Session, Book>)
    ensures AllHandles(InvalidateAll(books)) == {}
  {
  }

  // ---------------------------------------------------------------- identifiers over time

  /** No session's counter went down, and every new checkpoint has an identifier its session never used. */
  ghost predicate Aged(a: map<Session, Book>, b: map<Session, Book>) {
    forall s {:trigger BookAged(a[s], b[s])} :: s in a && s in b ==> BookAged(a[s], b[s])
  }

  ghost predicate BookAged(a: Book, b: Book) {
    a.next <= b.next && forall c :: c in Nodes(b) && c !in Nodes(a) ==> a.next < c
  }

  /** Over two stretches of time: what was dropped in the first cannot come back in the second. */
  lemma AgedChain(a: map<Session, Book>, b: map<Session, Book>, c: map<Session, Book>)
    requires a.Keys == b.Keys && Aged(a, b) && Aged(b, c)
    ensures Aged(a, c)
  {
    forall s | s in a && s in c ensures BookAged(a[s], c[s]) {
      assert BookAged(a[s], b[s]) && BookAged(b[s], c[s]);
      forall d | d in Nodes(c[s]) && d !in Nodes(a[s]) ensures a[s].next < d {
        if d in Nodes(b[s]) {
        }
      }
    }
  }

  lemma SameTreesAged(a: map<Session, Book>, b: map<Session, Book>)
    requires SameTrees(a, b)
    ensures Aged(a, b)
  {
    forall s | s in a && s in b ensures BookAged(a[s], b[s]) {
      assert SameTree(a[s], b[s]);
    }
  }
}
