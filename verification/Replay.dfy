/** Rebuilding the missing suffix of one root-to-checkpoint path, all of it or none of it. */
module Replay {
  import opened Outcomes
  import opened Sources
  import opened Checkpoints
  import opened Prover
  import opened Coherence
  import opened Hosts
  import opened Pet
  import opened Engine
  import opened Runtime

  /** A rebuilt node, not yet visible in any book. */
  datatype Staged = Staged(id: Id, state: Handle, view: View)

  /** Node `c` with a handle and the rendering that came with it. */
  function Install(p: ProofSession, node: Staged): ProofSession
    requires node.id in p.checkpoints
  {
    p.(checkpoints := p.checkpoints[node.id := p.checkpoints[node.id].(petState := Some(node.state), view := node.view)])
  }

  ghost predicate Known(p: ProofSession, staged: seq<Staged>) {
    forall k :: 0 <= k < |staged| ==> staged[k].id in p.checkpoints
  }

  function InstallAll(p: ProofSession, staged: seq<Staged>): (q: ProofSession)
    requires Known(p, staged)
    ensures q.checkpoints.Keys == p.checkpoints.Keys && q.target == p.target && q.current == p.current
    decreases |staged|
  {
    if staged == [] then p else Install(InstallAll(p, staged[..|staged| - 1]), staged[|staged| - 1])
  }

  /** Nodes that are not staged are not touched. */
  lemma {:induction false} InstallElsewhere(p: ProofSession, staged: seq<Staged>, c: Id)
    requires Known(p, staged) && c in p.checkpoints
    requires forall k :: 0 <= k < |staged| ==> staged[k].id != c
    ensures InstallAll(p, staged).checkpoints[c] == p.checkpoints[c]
    decreases |staged|
  {
    if staged != [] {
      InstallElsewhere(p, staged[..|staged| - 1], c);
    }
  }

  /** Handles and renderings are all that an installation changes. */
  lemma {:induction false} InstallKeepsNodes(p: ProofSession, staged: seq<Staged>)
    requires Known(p, staged)
    ensures SameNodes(p.checkpoints, InstallAll(p, staged).checkpoints)
    decreases |staged|
  {
    if staged != [] {
      InstallKeepsNodes(p, staged[..|staged| - 1]);
    }
  }

  function Handles(staged: seq<Staged>): (r: seq<Handle>)
    ensures |r| == |staged|
  {
    seq(|staged|, i requires 0 <= i < |staged| => staged[i].state)
  }

  function WithProof(books: map<Session, Book>, s: Session, p: ProofSession): map<Session, Book>
    requires s in books
  {
    books[s := books[s].(proof := Some(p))]
  }

  /** Where a node's state comes from: the target's root, or one accepted input from its parent. */
  ghost predicate Derives(rocq: Rocq, proof: ProofSession, c: Id, p: Option<Process>, env: Environment, st: RocqState)
    requires c in proof.checkpoints
  {
    match proof.checkpoints[c].parent
    case None => rocq.Root(env, proof.target) == Some(st)
    case Some(d) =>
      && d in proof.checkpoints
      && proof.checkpoints[d].petState.Some?
      && proof.checkpoints[d].petState.value in Table(p)
      && proof.checkpoints[c].acceptedInput.Some?
      && rocq.step(Table(p)[proof.checkpoints[d].petState.value], proof.checkpoints[c].acceptedInput.value) == Accepted(st)
  }

  lemma StagingKeepsTree(b: Book, node: Staged)
    requires WellFormed(b) && b.proof.Some? && node.id in b.proof.value.checkpoints
    ensures WellFormed(b.(proof := Some(Install(b.proof.value, node))))
  {
    SameLinksSameTree(b.proof.value, Install(b.proof.value, node));
  }

  lemma SameLinksSameTree(p: ProofSession, q: ProofSession)
    requires Tree(p) && q.current == p.current && q.checkpoints.Keys == p.checkpoints.Keys
    requires forall c {:trigger q.checkpoints[c].parent} :: c in p.checkpoints ==>
               q.checkpoints[c].parent == p.checkpoints[c].parent && q.checkpoints[c].acceptedInput == p.checkpoints[c].acceptedInput
    ensures Tree(q)
  {
    forall c | c in q.checkpoints
      ensures c in p.checkpoints
      ensures q.checkpoints[c].parent == p.checkpoints[c].parent && q.checkpoints[c].acceptedInput == p.checkpoints[c].acceptedInput
      ensures c > 0 && (q.checkpoints[c].parent.None? <==> q.checkpoints[c].acceptedInput.None?)
    {
      assert c in q.checkpoints.Keys;
      assert p.checkpoints[c].parent.None? <==> p.checkpoints[c].acceptedInput.None?;
    }
    assert Rooted(q.checkpoints);
  }

  /** Staging one node keeps the draft coherent, and every identifier owned. */
  lemma StageNode(rocq: Rocq, books: map<Session, Book>, s: Session, p: Option<Process>, q: Option<Process>,
                  c: Id, step: Step, st: RocqState)
    requires s in books && books[s].proof.Some? && c in books[s].proof.value.checkpoints
    requires Coherent(rocq, books, p) && Grown(p, q, map[step.state := st]) && q.Some?
    requires books[s].proof.value.checkpoints[c].petState.None?
    requires Describes(rocq, step, st) && step.finished == books[s].proof.value.checkpoints[c].finished
    requires Derives(rocq, books[s].proof.value, c, p, q.value.env, st)
    ensures var now := WithProof(books, s, Install(books[s].proof.value, Staged(c, step.state, step.view)));
            && Coherent(rocq, now, q)
            && Orphans(now, q) == Orphans(books, p)
  {
    var proof := books[s].proof.value;
    var after := books[s].(proof := Some(Install(proof, Staged(c, step.state, step.view))));
    assert WellFormed(books[s]);
    StagingKeepsTree(books[s], Staged(c, step.state, step.view));
    assert step.state in map[step.state := st];
    assert Table(q)[step.state] == st;
    if proof.checkpoints[c].parent.Some? {
      var d := proof.checkpoints[c].parent.value;
      var h := proof.checkpoints[d].petState.value;
      assert Table(q)[h] == Table(p)[h];
    }
    assert Backed(rocq, after.proof.value, c, q);
    AdoptKeepsCoherence(rocq, books, p, q, s, after, c, step.state, st);
  }

  /** The first node of a path without a handle. */
  method FirstMissing(p: ProofSession, ids: seq<Id>) returns (k: nat)
    requires forall i :: 0 <= i < |ids| ==> ids[i] in p.checkpoints
    ensures k <= |ids|
    ensures forall i :: 0 <= i < k ==> p.checkpoints[ids[i]].petState.Some?
    ensures k < |ids| ==> p.checkpoints[ids[k]].petState.None?
  {
    k := 0;
    while k < |ids| && p.checkpoints[ids[k]].petState.Some?
      invariant k <= |ids|
      invariant forall i :: 0 <= i < k ==> p.checkpoints[ids[i]].petState.Some?
    {
      k := k + 1;
    }
  }

  /** Give back everything staged: the prover's table is what it was. */
  method ReleaseStaged(actor: PetActor, host: Host, staged: seq<Handle>, ghost before: Option<Process>, ghost extra: map<Handle, RocqState>)
      returns (r: EngineResult<()>)
    requires actor.Valid() && extra.Keys == Elements(staged)
    requires !actor.silentLoss ==> Grown(before, actor.process, extra)
    modifies actor`process, actor`epoch, host`since, host`request
    ensures actor.Steady(host, Elements(staged))
    ensures r.Ok? && !actor.silentLoss ==> Same(before, actor.process)
    ensures r.Err? ==> InvalidatesEpoch(r.error) && actor.process == None
    ensures r.Err? && r.error.RequestCancelled? ==> host.request.IsCancelled()
  {
    var released := actor.Release(host, staged);
    if released.Err? { return Err(ReleaseError(released.error)); }
    if !actor.silentLoss && old(actor.process).Some? {
      assert Table(old(actor.process)) - Elements(staged) == Table(before);
    }
    r := Ok(());
  }

  /** The staged nodes are the path nodes `ids[missing..i]`, in order. */
  ghost predicate Lined(staged: seq<Staged>, ids: seq<Id>, missing: nat, i: nat) {
    && missing <= i <= |ids| && |staged| == i - missing
    && forall k :: 0 <= k < |staged| ==> staged[k].id == ids[missing + k]
  }

  lemma LinedGrows(p: ProofSession, staged: seq<Staged>, ids: seq<Id>, missing: nat, i: nat, node: Staged)
    requires Lined(staged, ids, missing, i) && i < |ids| && node.id == ids[i]
    requires forall k, l :: 0 <= k < l < |ids| ==> ids[k] < ids[l]
    ensures Lined(staged + [node], ids, missing, i + 1)
    ensures forall k :: 0 <= k < |staged| ==> staged[k].id != ids[i]
  {
  }

  /**
   * Half-way through a replay: the book with the staged nodes put in place would be coherent, and
   * everything the prover exports on top of `before` is staged.
   */
  ghost predicate Drafting(rocq: Rocq, books: map<Session, Book>, s: Session, staged: seq<Staged>,
                           before: Option<Process>, p: Option<Process>, extra: map<Handle, RocqState>)
  {
    && s in books && books[s].proof.Some?
    && Known(books[s].proof.value, staged)
    && Grown(before, p, extra) && extra.Keys == Elements(Handles(staged))
    && Coherent(rocq, Draft(books, s, staged), p)
    && Orphans(Draft(books, s, staged), p) == Orphans(books, before)
  }

  /** The books as they would be with the staged nodes put in place. */
  function Draft(books: map<Session, Book>, s: Session, staged: seq<Staged>): map<Session, Book>
    requires s in books && books[s].proof.Some? && Known(books[s].proof.value, staged)
  {
    WithProof(books, s, InstallAll(books[s].proof.value, staged))
  }

  lemma NothingStaged(rocq: Rocq, books: map<Session, Book>, s: Session, p: Option<Process>)
    requires s in books && books[s].proof.Some? && Coherent(rocq, books, p)
    ensures Drafting(rocq, books, s, [], p, p, map[])
  {
    assert InstallAll(books[s].proof.value, []) == books[s].proof.value;
    assert Draft(books, s, []) == books;
    assert Table(p) + map[] == Table(p);
  }

  lemma StageNext(rocq: Rocq, books: map<Session, Book>, s: Session, staged: seq<Staged>,
                  before: Option<Process>, p: Option<Process>, q: Option<Process>, extra: map<Handle, RocqState>,
                  c: Id, step: Step, st: RocqState)
    requires Drafting(rocq, books, s, staged, before, p, extra)
    requires c in books[s].proof.value.checkpoints && books[s].proof.value.checkpoints[c].petState.None?
    requires forall k :: 0 <= k < |staged| ==> staged[k].id != c
    requires Grown(p, q, map[step.state := st]) && q.Some?
    requires Describes(rocq, step, st) && step.finished == books[s].proof.value.checkpoints[c].finished
    requires Derives(rocq, InstallAll(books[s].proof.value, staged), c, p, q.value.env, st)
    ensures Drafting(rocq, books, s, staged + [Staged(c, step.state, step.view)], before, q, extra[step.state := st])
  {
    StageOnDraft(rocq, books, s, staged, p, q, c, step, st);
    GrownTwice(before, p, q, extra, step.state, st);
    StagedKeys(staged, Staged(c, step.state, step.view), extra, st);
  }

  lemma StagedKeys(staged: seq<Staged>, node: Staged, extra: map<Handle, RocqState>, st: RocqState)
    requires extra.Keys == Elements(Handles(staged))
    ensures extra[node.state := st].Keys == Elements(Handles(staged + [node]))
  {
    StagedHandles(staged, node);
  }

  lemma StageOnDraft(rocq: Rocq, books: map<Session, Book>, s: Session, staged: seq<Staged>,
                     p: Option<Process>, q: Option<Process>, c: Id, step: Step, st: RocqState)
    requires s in books && books[s].proof.Some? && Known(books[s].proof.value, staged)
    requires Coherent(rocq, Draft(books, s, staged), p) && Grown(p, q, map[step.state := st]) && q.Some?
    requires c in books[s].proof.value.checkpoints && books[s].proof.value.checkpoints[c].petState.None?
    requires forall k :: 0 <= k < |staged| ==> staged[k].id != c
    requires Describes(rocq, step, st) && step.finished == books[s].proof.value.checkpoints[c].finished
    requires Derives(rocq, InstallAll(books[s].proof.value, staged), c, p, q.value.env, st)
    ensures var more := staged + [Staged(c, step.state, step.view)];
            && Known(books[s].proof.value, more)
            && Coherent(rocq, Draft(books, s, more), q)
            && Orphans(Draft(books, s, more), q) == Orphans(Draft(books, s, staged), p)
  {
    InstallElsewhere(books[s].proof.value, staged, c);
    DraftGrows(books, s, staged, Staged(c, step.state, step.view));
    StageNode(rocq, Draft(books, s, staged), s, p, q, c, step, st);
  }

  lemma DraftGrows(books: map<Session, Book>, s: Session, staged: seq<Staged>, node: Staged)
    requires s in books && books[s].proof.Some? && Known(books[s].proof.value, staged)
    requires node.id in books[s].proof.value.checkpoints
    ensures Known(books[s].proof.value, staged + [node])
    ensures Draft(books, s, staged)[s].proof.Some? && node.id in Draft(books, s, staged)[s].proof.value.checkpoints
    ensures Draft(books, s, staged + [node])
            == WithProof(Draft(books, s, staged), s, Install(Draft(books, s, staged)[s].proof.value, node))
  {
    assert (staged + [node])[..|staged|] == staged;
  }

  lemma GrownTwice(a: Option<Process>, b: Option<Process>, c: Option<Process>, extra: map<Handle, RocqState>, h: Handle, st: RocqState)
    requires Grown(a, b, extra) && Grown(b, c, map[h := st])
    ensures Grown(a, c, extra[h := st])
  {
    assert h in map[h := st].Keys;
    assert Table(a) + extra[h := st] == Table(b) + map[h := st];
  }

  lemma StagedHandles(staged: seq<Staged>, node: Staged)
    ensures Elements(Handles(staged + [node])) == Elements(Handles(staged)) + {node.state}
  {
    var all := Handles(staged + [node]);
    assert all == Handles(staged) + [node.state];
  }

  // ---------------------------------------------------------------- when a node can be made again

  /**
   * In this environment the node can be made again: the fragments to it run to states that may be held,
   * and every node on the way completes the proof exactly if it did before.
   */
  ghost predicate Repeatable(rocq: Rocq, env: Environment, p: ProofSession, c: Id)
    requires Tree(p) && c in p.checkpoints
    decreases c
  {
    var st := rocq.Replay(env, p.target, Fragments(p, c));
    && st.Some? && rocq.finished(st.value) == p.checkpoints[c].finished
    && (p.checkpoints[c].parent.Some? ==> Repeatable(rocq, env, p, p.checkpoints[c].parent.value))
  }

  /** Nothing else stands in its way: the proof's source is as it was, and every fragment is one that may be run. */
  ghost predicate Favoured(rocq: Rocq, env: Environment, p: ProofSession) {
    && RootReady(rocq, env, p.target)
    && forall c {:trigger p.checkpoints[c].acceptedInput} :: c in p.checkpoints && p.checkpoints[c].acceptedInput.Some? ==>
         FragmentAdmitted(p.checkpoints[c].acceptedInput.value)
  }

  /** Whatever holds a handle can be made again. */
  lemma {:induction false} HeldIsRepeatable(rocq: Rocq, books: map<Session, Book>, p: Option<Process>, s: Session, c: Id)
    requires Coherent(rocq, books, p) && HandleAt(books, s, c).Some?
    ensures p.Some? && Tree(books[s].proof.value) && Repeatable(rocq, p.value.env, books[s].proof.value, c)
    decreases c
  {
    CacheRefinesReplay(rocq, books, p, s, c);
    assert Backed(rocq, books[s].proof.value, c, p);
    if books[s].proof.value.checkpoints[c].parent.Some? {
      HeldIsRepeatable(rocq, books, p, s, books[s].proof.value.checkpoints[c].parent.value);
    }
  }

  lemma {:induction false} SameNodesRepeatable(rocq: Rocq, env: Environment, p: ProofSession, q: ProofSession, c: Id)
    requires Tree(p) && Tree(q) && p.target == q.target && SameNodes(p.checkpoints, q.checkpoints) && c in p.checkpoints
    ensures Repeatable(rocq, env, p, c) <==> Repeatable(rocq, env, q, c)
    decreases c
  {
    SameNodesSameFragments(p, q, c);
    assert Uncached(p.checkpoints[c]) == Uncached(q.checkpoints[c]);
    if p.checkpoints[c].parent.Some? {
      SameNodesRepeatable(rocq, env, p, q, p.checkpoints[c].parent.value);
    }
  }

  /** With everything before it staged, the next node of such a path runs and completes as it did. */
  lemma NextRuns(rocq: Rocq, books: map<Session, Book>, s: Session, staged: seq<Staged>, before: Option<Process>, p: Option<Process>,
                 extra: map<Handle, RocqState>, c: Id, d: Id, state: Handle)
    requires Drafting(rocq, books, s, staged, before, p, extra) && Tree(books[s].proof.value)
    requires c in books[s].proof.value.checkpoints && books[s].proof.value.checkpoints[c].parent == Some(d)
    requires d in books[s].proof.value.checkpoints && InstallAll(books[s].proof.value, staged).checkpoints[d].petState == Some(state)
    requires p.Some? && Repeatable(rocq, p.value.env, books[s].proof.value, c)
    ensures books[s].proof.value.checkpoints[c].acceptedInput.Some? && state in Table(p)
    ensures SafeStep(rocq, Table(p)[state], books[s].proof.value.checkpoints[c].acceptedInput.value)
    ensures rocq.finished(rocq.step(Table(p)[state], books[s].proof.value.checkpoints[c].acceptedInput.value).state)
            == books[s].proof.value.checkpoints[c].finished
  {
    var proof, draft := books[s].proof.value, Draft(books, s, staged);
    assert HandleAt(draft, s, d) == Some(state);
    CacheRefinesReplay(rocq, draft, p, s, d);
    InstallKeepsNodes(proof, staged);
    SameNodesSameFragments(proof, draft[s].proof.value, d);
    var root := rocq.Root(p.value.env, proof.target).value;
    rocq.RunAppend(root, Fragments(proof, d), proof.checkpoints[c].acceptedInput.value);
  }

  /** The prover is up, nothing moves for `n` events, and the node can be made again. */
  ghost predicate Promising(script: nat -> Event, rocq: Rocq, m: Moment, p: Option<Process>, proof: ProofSession, c: Id, n: nat) {
    && p.Some? && p.value.ready && Hush(script, m.clock, m.clock + n) && !m.request.IsCancelled()
    && Contents(m.disk, proof.target.file) == Some(proof.target.source) && Favoured(rocq, p.value.env, proof)
    && Tree(proof) && c in proof.checkpoints && Repeatable(rocq, p.value.env, proof, c)
  }

  /** What can be made again at the end of a path can be made again all along it. */
  lemma {:induction false} RepeatableAlong(rocq: Rocq, env: Environment, proof: ProofSession, ids: seq<Id>, k: nat)
    requires Tree(proof) && k < |ids| && (forall i :: 0 <= i < |ids| ==> ids[i] in proof.checkpoints)
    requires forall i :: 0 < i < |ids| ==> Linked(proof, ids, i)
    requires Repeatable(rocq, env, proof, ids[|ids| - 1])
    ensures Repeatable(rocq, env, proof, ids[k])
    decreases |ids| - k
  {
    if k + 1 < |ids| {
      RepeatableAlong(rocq, env, proof, ids, k + 1);
      assert Linked(proof, ids, k + 1);
    }
  }

  /** The promise for a later part of the time and an earlier node of the path. */
  lemma PromisingOn(script: nat -> Event, rocq: Rocq, m: Moment, p: Option<Process>, proof: ProofSession, ids: seq<Id>, n: nat,
                    later: Moment, q: Option<Process>, k: nat, more: nat)
    requires k < |ids| && (forall i :: 0 <= i < |ids| ==> ids[i] in proof.checkpoints)
    requires forall i :: 0 < i < |ids| ==> Linked(proof, ids, i)
    requires Promising(script, rocq, m, p, proof, ids[|ids| - 1], n)
    requires m.clock <= later.clock && later.clock + more <= m.clock + n && later.request == m.request && later.disk == m.disk
    requires q.Some? && q.value.ready && q.value.env == p.value.env
    ensures Promising(script, rocq, later, q, proof, ids[k], more)
  {
    RepeatableAlong(rocq, p.value.env, proof, ids, k);
  }

  /** Rebuild the root of a proof whose root has no handle. */
  method StageRoot(rt: ProjectRuntime, host: Host, s: Session, root: Id, ghost quiet: bool := false)
      returns (r: EngineResult<Staged>, ghost extra: map<Handle, RocqState>)
    requires rt.Sound() && s in rt.sessions && rt.sessions[s].proof.Some? && root in rt.sessions[s].proof.value.checkpoints
    requires rt.sessions[s].proof.value.checkpoints[root].parent.None?
    requires rt.sessions[s].proof.value.checkpoints[root].petState.None?
    requires quiet ==> Promising(host.script, rt.actor.rocq, host.Now(), rt.actor.process, rt.sessions[s].proof.value, root, 6)
    modifies rt.actor`process, rt.actor`epoch, rt.actor`silentLoss, host`since, host`request
    ensures rt.actor.Steady(host)
    ensures r.Ok? ==> r.value.id == root && !rt.actor.silentLoss
                      && Drafting(rt.actor.rocq, rt.sessions, s, [r.value], old(rt.actor.process), rt.actor.process, extra)
    ensures r.Err? && Intact(r) && !rt.actor.silentLoss ==> Same(old(rt.actor.process), rt.actor.process)
    ensures !Intact(r) ==> rt.actor.process == None
    ensures r.Err? && r.error.RequestCancelled? ==> host.request.IsCancelled()
    ensures quiet ==> r.Ok? && host.Lingered(6)
  {
    var proof := rt.sessions[s].proof.value;
    ghost var before := rt.actor.process;
    extra := map[];
    var begun := ReplayRoot(rt.actor, host, proof.target, quiet);
    if begun.Err? { return Err(begun.error), extra; }
    var step := begun.value;
    ghost var st := rt.actor.process.value.exported[step.state];
    var node := Staged(root, step.state, step.view);
    assert [] + [node] == [node];
    StagedHandles([], node);
    if step.finished != proof.checkpoints[root].finished {
      var released := ReleaseStaged(rt.actor, host, Handles([node]), before, map[step.state := st]);
      return Err(if released.Err? then released.error else DeclarationChanged), extra;
    }
    NothingStaged(rt.actor.rocq, rt.sessions, s, before);
    StageNext(rt.actor.rocq, rt.sessions, s, [], before, before, rt.actor.process, map[], root, step, st);
    r, extra := Ok(node), map[][step.state := st];
  }

  /** Run one accepted input again; unless it ends as it did before, give back all that is staged. */
  method RunOrUndo(actor: PetActor, host: Host, target: Target, state: Handle, input: Text, finished: bool, staged: seq<Handle>,
                   ghost before: Option<Process>, ghost extra: map<Handle, RocqState>, ghost quiet: bool := false)
      returns (r: EngineResult<Step>)
    requires actor.Valid() && !actor.silentLoss
    requires Grown(before, actor.process, extra) && extra.Keys == Elements(staged)
    requires quiet ==> host.Still(3) && Contents(host.Disk(), target.file) == Some(target.source) && FragmentAdmitted(input)
                       && state in Table(actor.process) && SafeStep(actor.rocq, Table(actor.process)[state], input)
                       && actor.rocq.finished(actor.rocq.step(Table(actor.process)[state], input).state) == finished
    modifies actor`process, actor`epoch, actor`silentLoss, host`since, host`request
    ensures actor.Steady(host, Elements(staged))
    ensures r.Ok? ==> state in Table(old(actor.process)) && r.value.finished == finished && !actor.silentLoss
    ensures r.Ok? ==> var verdict := actor.rocq.step(Table(old(actor.process))[state], input);
                      verdict.Accepted? && Exported(actor, r.value.state, verdict.state)
                      && Describes(actor.rocq, r.value, verdict.state)
    ensures r.Err? && Intact(r) && !actor.silentLoss ==> Same(before, actor.process)
    ensures !Intact(r) ==> actor.process == None
    ensures r.Err? && r.error.RequestCancelled? ==> host.request.IsCancelled()
    ensures quiet ==> r.Ok? && host.Waited(3)
  {
    r := Run(actor, host, target, state, input, quiet);
    if r.Err? && InvalidatesEpoch(r.error) { return; }
    if r.Err? {
      var released := ReleaseStaged(actor, host, staged, before, extra);
      return Err(if released.Err? then released.error else r.error);
    }
    if r.value.finished != finished {
      var released := UndoLast(actor, host, staged, r.value.state, before, old(actor.process), extra);
      return Err(if released.Err? then released.error else DeclarationChanged);
    }
  }

  /** Give back all that is staged and one state more. */
  method UndoLast(actor: PetActor, host: Host, staged: seq<Handle>, last: Handle, ghost before: Option<Process>, ghost mid: Option<Process>,
                  ghost extra: map<Handle, RocqState>)
      returns (r: EngineResult<()>)
    requires actor.Valid() && !actor.silentLoss && last in Table(actor.process)
    requires Grown(before, mid, extra) && extra.Keys == Elements(staged) && Grown(mid, actor.process, map[last := Table(actor.process)[last]])
    modifies actor`process, actor`epoch, host`since, host`request
    ensures actor.Steady(host, Elements(staged) + {last}) && !actor.silentLoss
    ensures r.Ok? ==> Same(before, actor.process)
    ensures r.Err? ==> InvalidatesEpoch(r.error) && actor.process == None
    ensures r.Err? && r.error.RequestCancelled? ==> host.request.IsCancelled()
  {
    ghost var st := Table(actor.process)[last];
    GrownTwice(before, mid, actor.process, extra, last, st);
    assert Elements(staged + [last]) == Elements(staged) + {last};
    r := ReleaseStaged(actor, host, staged + [last], before, extra[last := st]);
  }

  /** Run one node's accepted input from its parent's state; on failure give back all that is staged. */
  method StageStep(rt: ProjectRuntime, host: Host, s: Session, staged: seq<Staged>, c: Id, state: Handle,
                   ghost before: Option<Process>, ghost extra: map<Handle, RocqState>, ghost quiet: bool := false)
      returns (r: EngineResult<Staged>, ghost more: map<Handle, RocqState>)
    requires rt.Valid() && !rt.actor.silentLoss
    requires Drafting(rt.actor.rocq, rt.sessions, s, staged, before, rt.actor.process, extra)
    requires c in rt.sessions[s].proof.value.checkpoints && rt.sessions[s].proof.value.checkpoints[c].petState.None?
    requires forall k :: 0 <= k < |staged| ==> staged[k].id != c
    requires rt.sessions[s].proof.value.checkpoints[c].parent.Some?
    requires var d := rt.sessions[s].proof.value.checkpoints[c].parent.value;
             && d in rt.sessions[s].proof.value.checkpoints
             && InstallAll(rt.sessions[s].proof.value, staged).checkpoints[d].petState == Some(state)
    requires quiet ==> Promising(host.script, rt.actor.rocq, host.Now(), rt.actor.process, rt.sessions[s].proof.value, c, 3)
    modifies rt.actor`process, rt.actor`epoch, rt.actor`silentLoss, host`since, host`request
    ensures rt.actor.Steady(host, Elements(Handles(staged)))
    ensures r.Ok? ==> r.value.id == c && !rt.actor.silentLoss
                      && Drafting(rt.actor.rocq, rt.sessions, s, staged + [r.value], before, rt.actor.process, more)
    ensures r.Err? && Intact(r) && !rt.actor.silentLoss ==> Same(before, rt.actor.process)
    ensures !Intact(r) ==> rt.actor.process == None
    ensures r.Err? && r.error.RequestCancelled? ==> host.request.IsCancelled()
    ensures quiet ==> r.Ok? && host.Waited(3)
  {
    more := extra;
    var proof := rt.sessions[s].proof.value;
    var node := proof.checkpoints[c];
    assert WellFormed(rt.sessions[s]);
    if quiet {
      NextRuns(rt.actor.rocq, rt.sessions, s, staged, before, rt.actor.process, extra, c, node.parent.value, state);
    }
    if node.acceptedInput.None? { return Err(InvalidConfiguration), more; }
    var run := RunOrUndo(rt.actor, host, proof.target, state, node.acceptedInput.value, node.finished, Handles(staged), before, extra, quiet);
    if run.Err? { return Err(run.error), more; }
    ghost var st := rt.actor.process.value.exported[run.value.state];
    InstallElsewhere(proof, staged, c);
    StageNext(rt.actor.rocq, rt.sessions, s, staged, before, old(rt.actor.process), rt.actor.process, extra, c, run.value, st);
    r, more := Ok(Staged(c, run.value.state, run.value.view)), extra[run.value.state := st];
  }

  function Displaced(previous: Option<Handle>): seq<Handle> {
    match previous
    case None => []
    case Some(h) => [h]
  }

  /** Put the staged nodes in place. None of them had a handle, so none is displaced. */
  method InstallStaged(p: ProofSession, staged: seq<Staged>) returns (q: ProofSession, replaced: seq<Handle>)
    requires Known(p, staged)
    requires forall k :: 0 <= k < |staged| ==> p.checkpoints[staged[k].id].petState.None?
    requires forall k, l :: 0 <= k < l < |staged| ==> staged[k].id != staged[l].id
    ensures q == InstallAll(p, staged)
    ensures replaced == []
  {
    q, replaced := p, [];
    for k := 0 to |staged|
      invariant q == InstallAll(p, staged[..k])
      invariant replaced == []
    {
      var node := staged[k];
      InstallElsewhere(p, staged[..k], node.id);
      assert staged[..k + 1][..k] == staged[..k];
      replaced := replaced + Displaced(q.checkpoints[node.id].petState);
      q := Install(q, node);
    }
    assert staged[..|staged|] == staged;
  }

  /** A path of the session's book whose nodes from `missing` on have no handle. */
  ghost predicate Broken(books: map<Session, Book>, s: Session, ids: seq<Id>, missing: nat) {
    && s in books && books[s].proof.Some? && missing < |ids|
    && (forall k :: 0 <= k < |ids| ==> ids[k] in books[s].proof.value.checkpoints)
    && (forall k :: 0 < k < |ids| ==> Linked(books[s].proof.value, ids, k))
    && books[s].proof.value.checkpoints[ids[0]].parent.None?
    && (forall k, l :: 0 <= k < l < |ids| ==> ids[k] < ids[l])
    && (forall k :: 0 <= k < missing ==> books[s].proof.value.checkpoints[ids[k]].petState.Some?)
    && (forall k :: missing <= k < |ids| ==> books[s].proof.value.checkpoints[ids[k]].petState.None?)
  }

  lemma PathIsBroken(rocq: Rocq, books: map<Session, Book>, p: Option<Process>, s: Session, target: Id, missing: nat)
    requires Coherent(rocq, books, p) && s in books && books[s].proof.Some?
    requires target in books[s].proof.value.checkpoints && Tree(books[s].proof.value)
    requires var ids := Path(books[s].proof.value, target);
             && missing < |ids|
             && (forall k :: 0 <= k < missing ==> books[s].proof.value.checkpoints[ids[k]].petState.Some?)
             && books[s].proof.value.checkpoints[ids[missing]].petState.None?
    ensures Broken(books, s, Path(books[s].proof.value, target), missing)
  {
    PathStep(books[s].proof.value, target, 0);
    PathIncreases(books[s].proof.value, target);
    PathLinked(books[s].proof.value, target);
    AllMissing(rocq, books, p, s, target, missing);
  }

  lemma AllMissing(rocq: Rocq, books: map<Session, Book>, p: Option<Process>, s: Session, target: Id, missing: nat)
    requires Coherent(rocq, books, p) && s in books && books[s].proof.Some?
    requires target in books[s].proof.value.checkpoints && Tree(books[s].proof.value)
    requires missing < |Path(books[s].proof.value, target)|
    requires books[s].proof.value.checkpoints[Path(books[s].proof.value, target)[missing]].petState.None?
    ensures forall k :: missing <= k < |Path(books[s].proof.value, target)| ==>
              books[s].proof.value.checkpoints[Path(books[s].proof.value, target)[k]].petState.None?
  {
    var ids := Path(books[s].proof.value, target);
    forall k | missing <= k < |ids| ensures books[s].proof.value.checkpoints[ids[k]].petState.None? {
      MissingIsASuffix(rocq, books, p, s, target, missing, k);
    }
  }

  /** Rebuild `ids[missing..]`, parent before child, without touching any book. */
  method StageSuffix(rt: ProjectRuntime, host: Host, s: Session, ids: seq<Id>, missing: nat, ghost quiet: bool := false)
      returns (r: EngineResult<seq<Staged>>, ghost extra: map<Handle, RocqState>)
    requires rt.Sound() && Broken(rt.sessions, s, ids, missing)
    requires quiet ==> Promising(host.script, rt.actor.rocq, host.Now(), rt.actor.process, rt.sessions[s].proof.value, ids[|ids| - 1], 6 + 3 * |ids|)
    modifies rt.actor`process, rt.actor`epoch, rt.actor`silentLoss, host`since, host`request
    ensures rt.actor.Steady(host)
    ensures r.Ok? ==> !rt.actor.silentLoss && Lined(r.value, ids, missing, |ids|)
                      && Drafting(rt.actor.rocq, rt.sessions, s, r.value, old(rt.actor.process), rt.actor.process, extra)
    ensures r.Err? && Intact(r) && !rt.actor.silentLoss ==> Same(old(rt.actor.process), rt.actor.process)
    ensures !Intact(r) ==> rt.actor.process == None
    ensures r.Err? && r.error.RequestCancelled? ==> host.request.IsCancelled()
    ensures quiet ==> r.Ok?
  {
    var staged: seq<Staged>, start := [], missing;
    extra := map[];
    ghost var proof, m, p := rt.sessions[s].proof.value, host.Now(), rt.actor.process;
    NothingStaged(rt.actor.rocq, rt.sessions, s, rt.actor.process);
    if missing == 0 {
      if quiet {
        PromisingOn(host.script, rt.actor.rocq, m, p, proof, ids, 6 + 3 * |ids|, m, p, 0, 6);
      }
      var root;
      root, extra := StageRoot(rt, host, s, ids[0], quiet);
      if root.Err? { return Err(root.error), extra; }
      staged, start := [root.value], 1;
      StagedIsUp(rt.actor, staged, extra, p);
    }
    if quiet {
      PromisingOn(host.script, rt.actor.rocq, m, p, proof, ids, 6 + 3 * |ids|, host.Now(), rt.actor.process, |ids| - 1, 3 * |ids|);
    }
    r, extra := StageRest(rt, host, s, ids, missing, staged, start, p, extra, quiet);
  }

  /** A prover that exports what was staged is up. */
  lemma StagedIsUp(actor: PetActor, staged: seq<Staged>, extra: map<Handle, RocqState>, before: Option<Process>)
    requires actor.Valid() && Grown(before, actor.process, extra) && extra.Keys == Elements(Handles(staged))
    ensures staged != [] ==> actor.IsUp()
    ensures before.Some? ==> actor.process.Some? && actor.process.value.env == before.value.env
  {
    if staged != [] {
      assert Handles(staged)[0] in Elements(Handles(staged));
      assert Handles(staged)[0] in Table(actor.process);
    }
  }

  lemma AllButExtra(before: Option<Process>, p: Option<Process>, extra: map<Handle, RocqState>)
    requires Grown(before, p, extra)
    ensures Table(p).Keys - extra.Keys == Table(before).Keys
  {
  }

  /** The loop over the nodes after the root. */
  method StageRest(rt: ProjectRuntime, host: Host, s: Session, ids: seq<Id>, missing: nat, begun: seq<Staged>, start: nat,
                   ghost before: Option<Process>, ghost first: map<Handle, RocqState>, ghost quiet: bool := false)
      returns (r: EngineResult<seq<Staged>>, ghost extra: map<Handle, RocqState>)
    requires rt.Valid() && !rt.actor.silentLoss && Broken(rt.sessions, s, ids, missing)
    requires 0 < start <= |ids| && Lined(begun, ids, missing, start)
    requires Drafting(rt.actor.rocq, rt.sessions, s, begun, before, rt.actor.process, first)
    requires quiet ==> before.Some? && rt.actor.IsUp()
                       && Promising(host.script, rt.actor.rocq, host.Now(), rt.actor.process, rt.sessions[s].proof.value, ids[|ids| - 1], 3 * |ids|)
    modifies rt.actor`process, rt.actor`epoch, rt.actor`silentLoss, host`since, host`request
    ensures rt.actor.Steady(host, first.Keys)
    ensures r.Ok? ==> !rt.actor.silentLoss && Lined(r.value, ids, missing, |ids|)
                      && Drafting(rt.actor.rocq, rt.sessions, s, r.value, before, rt.actor.process, extra)
    ensures r.Err? && Intact(r) && !rt.actor.silentLoss ==> Same(before, rt.actor.process)
    ensures !Intact(r) ==> rt.actor.process == None
    ensures r.Err? && r.error.RequestCancelled? ==> host.request.IsCancelled()
    ensures quiet ==> r.Ok?
  {
    hide Promising, Coherent, Orphans, Draft, Hush;
    var proof := rt.sessions[s].proof.value;
    var staged, i := begun, start;
    extra := first;
    ghost var m, p := host.Now(), rt.actor.process;
    AllButExtra(before, rt.actor.process, first);
    StagedIsUp(rt.actor, begun, first, before);
    while i < |ids|
      invariant 0 < i <= |ids| && rt.actor.Steady(host, first.Keys) && !rt.actor.silentLoss
      invariant Lined(staged, ids, missing, i)
      invariant quiet ==> start <= i && host.Lingered(3 * (i - start)) && rt.actor.IsUp() && before.Some? && rt.actor.process.value.env == before.value.env
      invariant Drafting(rt.actor.rocq, rt.sessions, s, staged, before, rt.actor.process, extra)
    {
      LastStaged(proof, staged, ids, missing, i);
      assert Linked(proof, ids, i);
      var state := if i == missing then proof.checkpoints[ids[i - 1]].petState.value else staged[|staged| - 1].state;
      var node;
      AllButExtra(before, rt.actor.process, extra);
      if quiet {
        PromisingOn(host.script, rt.actor.rocq, m, p, proof, ids, 3 * |ids|, host.Now(), rt.actor.process, i, 3);
      }
      node, extra := StageStep(rt, host, s, staged, ids[i], state, before, extra, quiet);
      if node.Err? { return Err(node.error), extra; }
      StagedIsUp(rt.actor, staged + [node.value], extra, before);
      LinedGrows(proof, staged, ids, missing, i, node.value);
      staged := staged + [node.value];
      i := i + 1;
    }
    r := Ok(staged);
  }

  /** The state the next input runs from, and that the next node is still untouched. */
  lemma LastStaged(p: ProofSession, staged: seq<Staged>, ids: seq<Id>, missing: nat, i: nat)
    requires Lined(staged, ids, missing, i) && 0 < i < |ids| && Known(p, staged)
    requires forall k, l :: 0 <= k < l < |ids| ==> ids[k] < ids[l]
    requires forall k :: 0 <= k < |ids| ==> ids[k] in p.checkpoints
    ensures forall k :: 0 <= k < |staged| ==> staged[k].id != ids[i]
    ensures InstallAll(p, staged).checkpoints[ids[i - 1]].petState
            == if i == missing then p.checkpoints[ids[i - 1]].petState else Some(staged[|staged| - 1].state)
  {
    if i == missing {
      assert staged == [];
    } else {
      assert staged[|staged| - 1].id == ids[i - 1];
    }
  }

  /** Handles appeared only on the path to `target`, and none that was there changed. */
  ghost predicate OnlyOnPath(before: map<Session, Book>, after: map<Session, Book>, s: Session, target: Id)
    requires s in before && before[s].proof.Some? && Tree(before[s].proof.value) && target in before[s].proof.value.checkpoints
  {
    && (forall t, c :: HandleAt(before, t, c).Some? ==> HandleAt(after, t, c) == HandleAt(before, t, c))
    && (forall t, c :: HandleAt(before, t, c).None? && HandleAt(after, t, c).Some? ==>
          t == s && c in Path(before[s].proof.value, target))
  }

  lemma DraftOnPath(books: map<Session, Book>, s: Session, ids: seq<Id>, missing: nat, staged: seq<Staged>, target: Id)
    requires Broken(books, s, ids, missing) && Lined(staged, ids, missing, |ids|) && Known(books[s].proof.value, staged)
    requires Tree(books[s].proof.value) && target in books[s].proof.value.checkpoints
    requires ids == Path(books[s].proof.value, target)
    ensures OnlyOnPath(books, Draft(books, s, staged), s, target)
  {
    forall t: Session, c: Id
      ensures HandleAt(Draft(books, s, staged), t, c) == HandleAt(books, t, c)
              || (HandleAt(books, t, c).None? && t == s && c in ids)
    {
      DraftAt(books, s, ids, missing, staged, t, c);
    }
  }

  lemma DraftAt(books: map<Session, Book>, s: Session, ids: seq<Id>, missing: nat, staged: seq<Staged>, t: Session, c: Id)
    requires Broken(books, s, ids, missing) && Lined(staged, ids, missing, |ids|) && Known(books[s].proof.value, staged)
    ensures HandleAt(Draft(books, s, staged), t, c) == HandleAt(books, t, c)
            || (HandleAt(books, t, c).None? && t == s && c in ids)
  {
    var proof := books[s].proof.value;
    if t == s && c in proof.checkpoints {
      if k: nat :| missing <= k < |ids| && ids[k] == c {
        assert proof.checkpoints[ids[k]].petState.None?;
      } else {
        InstallElsewhere(proof, staged, c);
      }
    }
  }

  lemma DraftKeepsTrees(books: map<Session, Book>, s: Session, staged: seq<Staged>)
    requires s in books && books[s].proof.Some? && Known(books[s].proof.value, staged)
    ensures SameTrees(books, Draft(books, s, staged))
  {
    InstallKeepsNodes(books[s].proof.value, staged);
  }

  /** Stage the missing suffix of a path and, if all of it came back, put it in place. */
  method ReplayMissing(rt: ProjectRuntime, host: Host, s: Session, target: Id, ids: seq<Id>, missing: nat, ghost quiet: bool := false)
      returns (r: EngineResult<Handle>)
    requires rt.Sound() && Broken(rt.sessions, s, ids, missing)
    requires Tree(rt.sessions[s].proof.value) && target in rt.sessions[s].proof.value.checkpoints
    requires ids == Path(rt.sessions[s].proof.value, target)
    requires quiet ==> Promising(host.script, rt.actor.rocq, host.Now(), rt.actor.process, rt.sessions[s].proof.value, target, 6 + 3 * |ids|)
    modifies rt`sessions, rt.actor`process, rt.actor`epoch, rt.actor`silentLoss, host`since, host`request
    ensures rt.actor.Steady(host)
    ensures r.Err? ==> rt.sessions == old(rt.sessions)
    ensures r.Err? && Intact(r) && !rt.actor.silentLoss ==> Same(old(rt.actor.process), rt.actor.process)
    ensures !Intact(r) ==> rt.actor.process == None
    ensures r.Err? && r.error.RequestCancelled? ==> host.request.IsCancelled()
    ensures quiet ==> r.Ok?
    ensures r.Ok? ==> rt.Sound() && rt.Loose() == old(rt.Loose()) && SameTrees(old(rt.sessions), rt.sessions)
    ensures r.Ok? ==> HandleAt(rt.sessions, s, target) == Some(r.value) && OnlyOnPath(old(rt.sessions), rt.sessions, s, target)
  {
    hide Promising, OnlyOnPath, Drafting;
    var staged, extra := StageSuffix(rt, host, s, ids, missing, quiet);
    if staged.Err? { return Err(staged.error); }
    r := PutInPlace(rt, host, s, target, ids, missing, staged.value, old(rt.actor.process), extra);
  }

  lemma LinedNodes(books: map<Session, Book>, s: Session, ids: seq<Id>, missing: nat, staged: seq<Staged>)
    requires Broken(books, s, ids, missing) && Lined(staged, ids, missing, |ids|) && Known(books[s].proof.value, staged)
    ensures forall k :: 0 <= k < |staged| ==> books[s].proof.value.checkpoints[staged[k].id].petState.None?
    ensures forall k, l :: 0 <= k < l < |staged| ==> staged[k].id != staged[l].id
    ensures staged != [] && staged[|staged| - 1].id == ids[|ids| - 1]
  {
  }

  /** Nothing failed: the staged nodes become visible all at once. */
  method PutInPlace(rt: ProjectRuntime, host: Host, s: Session, ghost target: Id, ids: seq<Id>, ghost missing: nat, staged: seq<Staged>,
                    ghost before: Option<Process>, ghost extra: map<Handle, RocqState>)
      returns (r: EngineResult<Handle>)
    requires rt.Valid() && !rt.actor.silentLoss && Broken(rt.sessions, s, ids, missing) && Lined(staged, ids, missing, |ids|)
    requires Drafting(rt.actor.rocq, rt.sessions, s, staged, before, rt.actor.process, extra)
    requires Tree(rt.sessions[s].proof.value) && target in rt.sessions[s].proof.value.checkpoints
    requires ids == Path(rt.sessions[s].proof.value, target)
    modifies rt`sessions, rt.actor`process, rt.actor`epoch, host`since, host`request
    ensures rt.actor.Steady(host) && r.Ok?
    ensures rt.Sound() && rt.Loose() == Orphans(old(rt.sessions), before) && SameTrees(old(rt.sessions), rt.sessions)
    ensures HandleAt(rt.sessions, s, target) == Some(r.value) && OnlyOnPath(old(rt.sessions), rt.sessions, s, target)
  {
    ghost var books := rt.sessions;
    LinedNodes(books, s, ids, missing, staged);
    var installed, replaced := InstallStaged(rt.sessions[s].proof.value, staged);
    DraftOnPath(books, s, ids, missing, staged, target);
    DraftKeepsTrees(books, s, staged);
    SameTreesPublishable(rt.actor.rocq, books, Draft(books, s, staged));
    rt.sessions := WithProof(rt.sessions, s, installed);
    assert rt.sessions == Draft(books, s, staged);
    var released := rt.actor.Release(host, replaced);
    r := Ok(staged[|staged| - 1].state);
  }

  /** Nothing stands in the way of making the node live. */
  ghost predicate WillReplay(script: nat -> Event, rocq: Rocq, m: Moment, p: Option<Process>, b: Book, target: Id) {
    && b.proof.Some? && Tree(b.proof.value) && target in b.proof.value.checkpoints
    && Promising(script, rocq, m, p, b.proof.value, target, 6 + 3 * |Path(b.proof.value, target)|)
  }

  /** A node that is live can be made again, told of the graph as it was at any earlier time. */
  lemma RepeatableSince(rocq: Rocq, was: map<Session, Book>, now: map<Session, Book>, p: Option<Process>, s: Session, c: Id)
    requires AllWellFormed(was) && SameTrees(was, now) && Coherent(rocq, now, p) && HandleAt(now, s, c).Some?
    ensures p.Some? && s in was && was[s].proof.Some? && Tree(was[s].proof.value) && c in was[s].proof.value.checkpoints
    ensures Repeatable(rocq, p.value.env, was[s].proof.value, c)
  {
    assert WellFormed(was[s]) && SameTree(was[s], now[s]);
    HeldIsRepeatable(rocq, now, p, s, c);
    SameNodesRepeatable(rocq, p.value.env, was[s].proof.value, now[s].proof.value, c);
  }

  /**
   * Make `target` live. On success exactly the nodes of its path that had no handle gained one, and
   * the graph is as it was; on failure no checkpoint changed, and unless the epoch is over the
   * prover exports what it exported before. It succeeds only if the node can be made again in what
   * the prover has loaded, and while the world keeps still it then does.
   */
  method ReplayCheckpoint(rt: ProjectRuntime, host: Host, s: Session, target: Id, ghost quiet: bool := false) returns (r: EngineResult<Handle>)
    requires rt.Sound() && s in rt.sessions
    requires quiet ==> WillReplay(host.script, rt.actor.rocq, host.Now(), rt.actor.process, rt.sessions[s], target)
    modifies rt`sessions, rt.actor`process, rt.actor`epoch, rt.actor`silentLoss, host`since, host`request
    ensures Kept(rt, host, r) && OnlyInterrupted(old(host.request), host.request)
    ensures SameTrees(old(rt.sessions), rt.sessions)
    ensures r.Err? ==> rt.sessions == old(rt.sessions)
    ensures r.Err? && Intact(r) && !rt.actor.silentLoss ==> Same(old(rt.actor.process), rt.actor.process)
    ensures !Intact(r) ==> rt.actor.process == None
    ensures r.Ok? ==> HandleAt(rt.sessions, s, target) == Some(r.value) && !rt.actor.silentLoss
    ensures WellFormed(old(rt.sessions)[s])
    ensures r.Ok? ==> target in Nodes(old(rt.sessions)[s]) && OnlyOnPath(old(rt.sessions), rt.sessions, s, target)
    ensures r.Ok? ==> rt.actor.process.Some? && old(rt.sessions)[s].proof.Some?
                      && Repeatable(rt.actor.rocq, rt.actor.process.value.env, old(rt.sessions)[s].proof.value, target)
    ensures quiet ==> r.Ok?
  {
    hide Promising, Repeatable, OnlyOnPath;
    assert WellFormed(rt.sessions[s]);
    if rt.sessions[s].proof.None? { return Err(InvalidRequest); }
    if target !in rt.sessions[s].proof.value.checkpoints { return Err(InvalidRequest); }
    r := ReplayPath(rt, host, s, target, quiet);
    if r.Ok? {
      RepeatableSince(rt.actor.rocq, old(rt.sessions), rt.sessions, rt.actor.process, s, target);
    }
  }

  method ReplayPath(rt: ProjectRuntime, host: Host, s: Session, target: Id, ghost quiet: bool) returns (r: EngineResult<Handle>)
    requires rt.Sound() && s in rt.sessions && rt.sessions[s].proof.Some? && target in rt.sessions[s].proof.value.checkpoints
    requires quiet ==> WillReplay(host.script, rt.actor.rocq, host.Now(), rt.actor.process, rt.sessions[s], target)
    modifies rt`sessions, rt.actor`process, rt.actor`epoch, rt.actor`silentLoss, host`since, host`request
    ensures rt.actor.Steady(host) && rt.Valid()
    ensures r.Err? ==> rt.sessions == old(rt.sessions)
    ensures r.Err? && Intact(r) && !rt.actor.silentLoss ==> Same(old(rt.actor.process), rt.actor.process) && rt.Sound() && rt.Loose() <= old(rt.Loose())
    ensures !Intact(r) ==> rt.actor.process == None
    ensures r.Err? && r.error.RequestCancelled? ==> host.request.IsCancelled()
    ensures r.Ok? ==> rt.Sound() && rt.Loose() == old(rt.Loose()) && SameTrees(old(rt.sessions), rt.sessions)
    ensures WellFormed(old(rt.sessions)[s])
    ensures r.Ok? ==> HandleAt(rt.sessions, s, target) == Some(r.value) && OnlyOnPath(old(rt.sessions), rt.sessions, s, target)
    ensures quiet ==> r.Ok?
  {
    hide Promising;
    var proof := rt.sessions[s].proof.value;
    assert WellFormed(rt.sessions[s]);
    var ids := WalkPath(proof, target);
    var missing := FirstMissing(proof, ids);
    if missing == |ids| {
      return Ok(proof.checkpoints[ids[|ids| - 1]].petState.value);
    }
    ghost var before := rt.actor.process;
    PathIsBroken(rt.actor.rocq, rt.sessions, before, s, target, missing);
    r := ReplayMissing(rt, host, s, target, ids, missing, quiet);
    if r.Err? && Intact(r) && !rt.actor.silentLoss {
      SameKeepsCoherence(rt.actor.rocq, rt.sessions, before, rt.actor.process);
    }
  }
}
