/** The request-boundary checkpoint graph of one connection. */
module Checkpoints {
  import opened Outcomes
  import opened Sources

  type Id = nat
  type Handle = nat

  /** The bounded rendering kept on a node. */
  datatype View = View(goals: Text, nextOffset: Option<nat>)

  const MAX_ID: nat := 0xFFFF_FFFF_FFFF_FFFF

  datatype Checkpoint = Checkpoint(
    parent: Option<Id>,
    petState: Option<Handle>,
    acceptedInput: Option<Text>,
    finished: bool,
    view: View)

  datatype ProofSession = ProofSession(target: Target, current: Id, checkpoints: map<Id, Checkpoint>)

  datatype BookError = NoActiveProof | ActiveProof | Unknown | TooFar | Exhausted

  datatype Book = Book(next: nat, proof: Option<ProofSession>)
  {
    function Allocate(): Result<Id, BookError> {
      if next == MAX_ID then Err(Exhausted) else Ok(next + 1)
    }

    function Begin(target: Target, state: Handle, finished: bool, view: View): (Book, Result<Id, BookError>) {
      if proof.Some? then (this, Err(ActiveProof))
      else match Allocate()
        case Err(e) => (this, Err(e))
        case Ok(id) =>
          var root := Checkpoint(None, Some(state), None, finished, view);
          (Book(id, Some(ProofSession(target, id, map[id := root]))), Ok(id))
    }

    /** The identifier is spent even when no proof is active. */
    function Commit(state: Handle, input: Text, finished: bool, view: View): (Book, Result<Id, BookError>) {
      match Allocate()
      case Err(e) => (this, Err(e))
      case Ok(id) =>
        if proof.None? then (this.(next := id), Err(NoActiveProof))
        else
          var p := proof.value;
          var child := Checkpoint(Some(p.current), Some(state), Some(input), finished, view);
          (Book(id, Some(p.(current := id, checkpoints := p.checkpoints[id := child]))), Ok(id))
    }

    function Lookup(id: Id): Result<Checkpoint, BookError> {
      if proof.None? then Err(NoActiveProof)
      else if id !in proof.value.checkpoints then Err(Unknown)
      else Ok(proof.value.checkpoints[id])
    }

    function Select(id: Id): (Book, Result<(), BookError>) {
      if proof.None? then (this, Err(NoActiveProof))
      else if id !in proof.value.checkpoints then (this, Err(Unknown))
      else (this.(proof := Some(proof.value.(current := id))), Ok(()))
    }

    function Clear(): Book {
      this.(proof := None)
    }

    /** Forget every process-local handle; the graph and the accepted inputs stay replayable. */
    function Invalidate(): Book {
      if proof.None? then this
      else this.(proof := Some(proof.value.(checkpoints := Forget(proof.value.checkpoints))))
    }

    ghost function StepsBack(steps: nat): Result<Id, BookError>
      requires WellFormed(this)
    {
      if steps == 0 then Err(TooFar)
      else if proof.None? then Err(NoActiveProof)
      else
        var path := Path(proof.value, proof.value.current);
        if steps >= |path| then Err(TooFar) else Ok(path[|path| - 1 - steps])
    }
  }

  function Forget(m: map<Id, Checkpoint>): map<Id, Checkpoint> {
    map c | c in m :: m[c].(petState := None)
  }

  // ---------------------------------------------------------------- shape

  /** One root, and every other node hangs below a node with a strictly smaller identifier. */
  ghost predicate Tree(p: ProofSession) {
    p.current in p.checkpoints && Rooted(p.checkpoints)
  }

  ghost predicate Rooted(m: map<Id, Checkpoint>) {
    && (forall c {:trigger m[c].parent} :: c in m ==> c > 0 && (m[c].parent.None? <==> m[c].acceptedInput.None?))
    && (forall c {:trigger m[c].parent} :: c in m && m[c].parent.Some? ==> m[c].parent.value in m && m[c].parent.value < c)
    && (forall c, d {:trigger m[c].parent, m[d].parent} :: c in m && d in m && m[c].parent.None? && m[d].parent.None? ==> c == d)
  }

  /** The invariant of every reachable book. */
  ghost predicate WellFormed(b: Book) {
    && b.next <= MAX_ID
    && (b.proof.Some? ==>
          && Tree(b.proof.value)
          && forall c :: c in b.proof.value.checkpoints ==> c <= b.next)
  }

  /** The same graph, whatever handles and views are cached on its nodes. */
  ghost predicate SameTree(a: Book, b: Book) {
    && a.next == b.next
    && a.proof.Some? == b.proof.Some?
    && (a.proof.Some? ==>
          && a.proof.value.target == b.proof.value.target
          && a.proof.value.current == b.proof.value.current
          && SameNodes(a.proof.value.checkpoints, b.proof.value.checkpoints))
  }

  ghost predicate SameNodes(m: map<Id, Checkpoint>, n: map<Id, Checkpoint>) {
    && m.Keys == n.Keys
    && forall c :: c in m ==> Uncached(m[c]) == Uncached(n[c])
  }

  /** A node without its cache: the part that survives any loss of the prover. */
  function Uncached(c: Checkpoint): Checkpoint {
    c.(petState := None, view := View([], None))
  }

  // ---------------------------------------------------------------- paths

  /** Entry `i` of a chain is a child of the entry before it. */
  ghost predicate Linked(p: ProofSession, chain: seq<Id>, i: nat) {
    0 < i < |chain| && chain[i] in p.checkpoints && p.checkpoints[chain[i]].parent == Some(chain[i - 1])
  }

  /** The root-to-node path, both ends included. */
  ghost function Path(p: ProofSession, c: Id): (r: seq<Id>)
    requires Tree(p) && c in p.checkpoints
    ensures r != [] && r[|r| - 1] == c
    ensures forall i :: 0 <= i < |r| ==> r[i] in p.checkpoints
    decreases c
  {
    match p.checkpoints[c].parent
    case None => [c]
    case Some(q) => Path(p, q) + [c]
  }

  /** The accepted inputs along a path, root first. */
  ghost function Fragments(p: ProofSession, c: Id): seq<Text>
    requires Tree(p) && c in p.checkpoints
    decreases c
  {
    match p.checkpoints[c].parent
    case None => []
    case Some(q) => Fragments(p, q) + [p.checkpoints[c].acceptedInput.value]
  }

  /** A path starts at the root and goes from parent to child. */
  lemma {:induction false} PathStep(p: ProofSession, c: Id, i: nat)
    requires Tree(p) && c in p.checkpoints && i < |Path(p, c)|
    ensures Path(p, c)[i] in p.checkpoints
    ensures p.checkpoints[Path(p, c)[i]].parent == if i == 0 then None else Some(Path(p, c)[i - 1])
    decreases c
  {
    if p.checkpoints[c].parent.Some? && i < |Path(p, c)| - 1 {
      PathStep(p, p.checkpoints[c].parent.value, i);
    }
  }

  lemma PathLinked(p: ProofSession, c: Id)
    requires Tree(p) && c in p.checkpoints
    ensures forall i :: 0 < i < |Path(p, c)| ==> Linked(p, Path(p, c), i)
  {
    forall i | 0 < i < |Path(p, c)| ensures Linked(p, Path(p, c), i) {
      PathStep(p, c, i);
    }
  }

  /** `Path` is strictly increasing, so it terminates and visits no node twice. */
  lemma {:induction false} PathIncreases(p: ProofSession, c: Id)
    requires Tree(p) && c in p.checkpoints
    ensures forall i, j :: 0 <= i < j < |Path(p, c)| ==> Path(p, c)[i] < Path(p, c)[j]
    decreases c
  {
    if p.checkpoints[c].parent.Some? {
      var q := p.checkpoints[c].parent.value;
      PathIncreases(p, q);
    }
  }

  lemma PathDown(p: ProofSession, c: Id)
    requires Tree(p) && c in p.checkpoints
    ensures p.checkpoints[c].parent.None? ==> Path(p, c) == [c]
    ensures p.checkpoints[c].parent.Some? ==>
              p.checkpoints[c].parent.value in p.checkpoints && Path(p, c) == Path(p, p.checkpoints[c].parent.value) + [c]
  {
  }

  /** Any parent chain from the root to a node is that node's path: the path is unique. */
  lemma {:induction false} PathUnique(p: ProofSession, chain: seq<Id>, k: nat)
    requires Tree(p) && k < |chain| && (forall i :: 0 <= i < |chain| ==> chain[i] in p.checkpoints)
    requires p.checkpoints[chain[0]].parent.None?
    requires forall i :: 0 < i < |chain| ==> Linked(p, chain, i)
    ensures chain[..k + 1] == Path(p, chain[k])
    decreases k
  {
    PathDown(p, chain[k]);
    if k > 0 {
      PathUnique(p, chain, k - 1);
      assert Linked(p, chain, k);
      assert chain[..k + 1] == chain[..k] + [chain[k]];
    } else {
      assert chain[..1] == [chain[0]];
    }
  }

  /** A prefix of a path is the path of its last node. */
  lemma PathPrefix(p: ProofSession, c: Id, k: nat)
    requires Tree(p) && c in p.checkpoints && k < |Path(p, c)|
    ensures Path(p, c)[..k + 1] == Path(p, Path(p, c)[k])
  {
    PathStep(p, c, 0);
    PathLinked(p, c);
    PathUnique(p, Path(p, c), k);
  }

  /** One node per accepted input, plus the root. */
  lemma {:induction false} FragmentsFollowPath(p: ProofSession, c: Id)
    requires Tree(p) && c in p.checkpoints
    ensures |Path(p, c)| == |Fragments(p, c)| + 1
    decreases c
  {
    if p.checkpoints[c].parent.Some? {
      FragmentsFollowPath(p, p.checkpoints[c].parent.value);
    }
  }

  /** The root carries no input; every later node carries the fragment of its own step. */
  lemma {:induction false} FragmentAt(p: ProofSession, c: Id, i: nat)
    requires Tree(p) && c in p.checkpoints && i < |Path(p, c)|
    ensures |Path(p, c)| == |Fragments(p, c)| + 1
    ensures Path(p, c)[i] in p.checkpoints
    ensures p.checkpoints[Path(p, c)[i]].acceptedInput == if i == 0 then None else Some(Fragments(p, c)[i - 1])
    decreases c
  {
    FragmentsFollowPath(p, c);
    PathStep(p, c, i);
    if p.checkpoints[c].parent.Some? {
      var q := p.checkpoints[c].parent.value;
      if i < |Path(p, c)| - 1 {
        FragmentAt(p, q, i);
      } else {
        FragmentsFollowPath(p, q);
      }
    }
  }

  /** Paths and fragments do not depend on caches. */
  lemma {:induction false} SameNodesSameFragments(p: ProofSession, q: ProofSession, c: Id)
    requires Tree(p) && Tree(q) && SameNodes(p.checkpoints, q.checkpoints) && c in p.checkpoints
    ensures Fragments(p, c) == Fragments(q, c)
    decreases c
  {
    assert Uncached(p.checkpoints[c]) == Uncached(q.checkpoints[c]);
    if p.checkpoints[c].parent.Some? {
      SameNodesSameFragments(p, q, p.checkpoints[c].parent.value);
    }
  }

  lemma {:induction false} SameNodesSamePath(p: ProofSession, q: ProofSession, c: Id)
    requires Tree(p) && Tree(q) && SameNodes(p.checkpoints, q.checkpoints) && c in p.checkpoints
    ensures Path(p, c) == Path(q, c)
    decreases c
  {
    assert Uncached(p.checkpoints[c]) == Uncached(q.checkpoints[c]);
    if p.checkpoints[c].parent.Some? {
      SameNodesSamePath(p, q, p.checkpoints[c].parent.value);
    }
  }

  // ---------------------------------------------------------------- every operation keeps the invariant

  datatype Command =
    | DoBegin(target: Target, state: Handle, finished: bool, view: View)
    | DoCommit(state: Handle, input: Text, finished: bool, view: View)
    | DoSelect(id: Id)
    | DoClear
    | DoInvalidate

  function Apply(b: Book, command: Command): Book {
    match command
    case DoBegin(target, state, finished, view) => b.Begin(target, state, finished, view).0
    case DoCommit(state, input, finished, view) => b.Commit(state, input, finished, view).0
    case DoSelect(id) => b.Select(id).0
    case DoClear => b.Clear()
    case DoInvalidate => b.Invalidate()
  }

  function ApplyAll(b: Book, commands: seq<Command>): Book
    decreases |commands|
  {
    if commands == [] then b else ApplyAll(Apply(b, commands[0]), commands[1..])
  }

  ghost function Nodes(b: Book): map<Id, Checkpoint> {
    if b.proof.None? then map[] else b.proof.value.checkpoints
  }

  /**
   * Over every history, including proofs begun, cleared and begun again, a book stays a tree, its
   * counter never decreases, and a node that appears has an identifier above every earlier one:
   * identifiers are never reused.
   */
  lemma {:induction false} EveryHistoryIsATree(b: Book, commands: seq<Command>)
    requires WellFormed(b)
    ensures WellFormed(ApplyAll(b, commands))
    ensures b.next <= ApplyAll(b, commands).next
    ensures forall c :: c in Nodes(ApplyAll(b, commands)) && c !in Nodes(b) ==> b.next < c
    decreases |commands|
  {
    if commands != [] {
      OneCommandKeepsTheTree(b, commands[0]);
      EveryHistoryIsATree(Apply(b, commands[0]), commands[1..]);
    }
  }

  lemma OneCommandKeepsTheTree(b: Book, command: Command)
    requires WellFormed(b)
    ensures WellFormed(Apply(b, command))
    ensures b.next <= Apply(b, command).next
    ensures forall c :: c in Nodes(Apply(b, command)) && c !in Nodes(b) ==> b.next < c
  {
    match command
    case DoBegin(target, state, finished, view) =>
    case DoCommit(state, input, finished, view) =>
      if b.proof.Some? && b.Allocate().Ok? {
        GrowingKeepsTheTree(b.proof.value.checkpoints, b.next + 1, Checkpoint(Some(b.proof.value.current), Some(state), Some(input), finished, view));
      }
    case DoSelect(id) =>
    case DoClear =>
    case DoInvalidate =>
      if b.proof.Some? {
        ForgettingKeepsTheTree(b.proof.value.checkpoints);
      }
  }

  /** A new node below an old one, under an identifier above every other. */
  lemma GrowingKeepsTheTree(m: map<Id, Checkpoint>, id: Id, child: Checkpoint)
    requires Rooted(m) && forall c :: c in m ==> c < id
    requires child.parent.Some? && child.parent.value in m && child.acceptedInput.Some?
    ensures Rooted(m[id := child])
  {
    var now := m[id := child];
    assert now[id] == child;
    forall c, d | c in now && d in now && now[c].parent.None? && now[d].parent.None? ensures c == d {
      assert m[c].parent.None? && m[d].parent.None?;
    }
  }

  lemma ForgettingKeepsTheTree(m: map<Id, Checkpoint>)
    requires Rooted(m)
    ensures Rooted(Forget(m))
  {
  }

  // ---------------------------------------------------------------- the mutable book

  class CheckpointBook {
    var next: nat
    var proof: Option<ProofSession>

    ghost function Value(): Book
      reads this
    {
      Book(next, proof)
    }

    ghost predicate Valid()
      reads this
    {
      WellFormed(Value())
    }

    constructor ()
      ensures Valid() && Value() == Book(0, None)
    {
      next, proof := 0, None;
    }

    method Allocate() returns (r: Result<Id, BookError>)
      modifies this`next
      ensures r == old(Value()).Allocate()
      ensures next == if r.Ok? then r.value else old(next)
    {
      if next == MAX_ID { return Err(Exhausted); }
      next := next + 1;
      r := Ok(next);
    }

    method Begin(target: Target, state: Handle, finished: bool, view: View) returns (r: Result<Id, BookError>)
      requires Valid()
      modifies this
      ensures Valid()
      ensures (Value(), r) == old(Value()).Begin(target, state, finished, view)
    {
      if proof.Some? { return Err(ActiveProof); }
      var id := Allocate();
      if id.Err? { return id; }
      proof := Some(ProofSession(target, id.value, map[id.value := Checkpoint(None, Some(state), None, finished, view)]));
      r := id;
    }

    method Commit(state: Handle, input: Text, finished: bool, view: View) returns (r: Result<Id, BookError>)
      requires Valid()
      modifies this
      ensures Valid()
      ensures (Value(), r) == old(Value()).Commit(state, input, finished, view)
    {
      var id := Allocate();
      if id.Err? { return id; }
      if proof.None? { return Err(NoActiveProof); }
      var p := proof.value;
      var child := Checkpoint(Some(p.current), Some(state), Some(input), finished, view);
      GrowingKeepsTheTree(p.checkpoints, id.value, child);
      proof := Some(p.(current := id.value, checkpoints := p.checkpoints[id.value := child]));
      r := id;
    }

    method Select(id: Id) returns (r: Result<(), BookError>)
      requires Valid()
      modifies this`proof
      ensures Valid()
      ensures (Value(), r) == old(Value()).Select(id)
    {
      if proof.None? { return Err(NoActiveProof); }
      if id !in proof.value.checkpoints { return Err(Unknown); }
      proof := Some(proof.value.(current := id));
      r := Ok(());
    }

    method Clear() returns (taken: Option<ProofSession>)
      requires Valid()
      modifies this`proof
      ensures Valid()
      ensures Value() == old(Value()).Clear() && taken == old(proof)
    {
      taken := proof;
      proof := None;
    }

    method InvalidateStates()
      requires Valid()
      modifies this`proof
      ensures Valid()
      ensures Value() == old(Value()).Invalidate()
    {
      if proof.None? { return; }
      var forgotten := ForgetEach(proof.value.checkpoints);
      ForgettingKeepsTheTree(proof.value.checkpoints);
      proof := Some(proof.value.(checkpoints := forgotten));
    }

    method PathTo(target: Id) returns (r: Result<seq<Id>, BookError>)
      requires Valid()
      ensures proof.None? ==> r == Err(NoActiveProof)
      ensures proof.Some? && target !in proof.value.checkpoints ==> r == Err(Unknown)
      ensures proof.Some? && target in proof.value.checkpoints ==> r == Ok(Path(proof.value, target))
    {
      if proof.None? { return Err(NoActiveProof); }
      if target !in proof.value.checkpoints { return Err(Unknown); }
      var ids := WalkPath(proof.value, target);
      r := Ok(ids);
    }

    method FragmentsTo(target: Id) returns (r: Result<seq<Text>, BookError>)
      requires Valid()
      ensures proof.None? ==> r == Err(NoActiveProof)
      ensures proof.Some? && target !in proof.value.checkpoints ==> r == Err(Unknown)
      ensures proof.Some? && target in proof.value.checkpoints ==> r == Ok(Fragments(proof.value, target))
    {
      if proof.None? { return Err(NoActiveProof); }
      if target !in proof.value.checkpoints { return Err(Unknown); }
      var fragments := CollectFragments(proof.value, target);
      r := Ok(fragments);
    }

    method StepsBack(steps: nat) returns (r: Result<Id, BookError>)
      requires Valid()
      ensures r == Value().StepsBack(steps)
    {
      r := WalkBack(Book(next, proof), steps);
    }
  }

  method ForgetEach(checkpoints: map<Id, Checkpoint>) returns (m: map<Id, Checkpoint>)
    ensures m == Forget(checkpoints)
  {
    m := checkpoints;
    var todo := checkpoints.Keys;
    while todo != {}
      invariant todo <= m.Keys == checkpoints.Keys
      invariant forall c :: c in m ==> m[c] == if c in todo then checkpoints[c] else checkpoints[c].(petState := None)
      decreases |todo|
    {
      var c :| c in todo;
      m := m[c := m[c].(petState := None)];
      todo := todo - {c};
    }
  }

  /** Walk the parent links, then turn the walk around. */
  method WalkPath(p: ProofSession, target: Id) returns (ids: seq<Id>)
    requires Tree(p) && target in p.checkpoints
    ensures ids == Path(p, target)
  {
    var walk: seq<Id>, cursor := [], target;
    while p.checkpoints[cursor].parent.Some?
      invariant cursor in p.checkpoints
      invariant Path(p, target) == Path(p, cursor) + Backwards(walk)
      decreases cursor
    {
      BackwardsAppend(walk, cursor);
      walk := walk + [cursor];
      cursor := p.checkpoints[cursor].parent.value;
    }
    BackwardsAppend(walk, cursor);
    walk := walk + [cursor];
    ids := Backwards(walk);
  }

  method CollectFragments(p: ProofSession, target: Id) returns (fragments: seq<Text>)
    requires Tree(p) && target in p.checkpoints
    ensures fragments == Fragments(p, target)
  {
    var ids := WalkPath(p, target);
    fragments := [];
    for i := 0 to |ids|
      invariant i == 0 ==> fragments == []
      invariant i > 0 ==> fragments == Fragments(p, ids[i - 1])
    {
      PathStep(p, target, i);
      var input := p.checkpoints[ids[i]].acceptedInput;
      if input.Some? {
        fragments := fragments + [input.value];
      }
    }
  }

  /** `steps` parent links up from the selected node; the root has none to follow. */
  method WalkBack(b: Book, steps: nat) returns (r: Result<Id, BookError>)
    requires WellFormed(b)
    ensures r == b.StepsBack(steps)
  {
    if steps == 0 { return Err(TooFar); }
    if b.proof.None? { return Err(NoActiveProof); }
    var p := b.proof.value;
    ghost var path := Path(p, p.current);
    var id := p.current;
    for i := 0 to steps
      invariant i < |path| && id == path[|path| - 1 - i]
    {
      var parent := p.checkpoints[id].parent;
      PathStep(p, p.current, |path| - 1 - i);
      if parent.None? { return Err(TooFar); }
      id := parent.value;
    }
    r := Ok(id);
  }

  function Backwards(s: seq<Id>): (r: seq<Id>)
    ensures |r| == |s|
    ensures forall i :: 0 <= i < |s| ==> r[i] == s[|s| - 1 - i]
  {
    seq(|s|, i requires 0 <= i < |s| => s[|s| - 1 - i])
  }

  lemma BackwardsAppend(s: seq<Id>, x: Id)
    ensures Backwards(s + [x]) == [x] + Backwards(s)
  {
  }
}
