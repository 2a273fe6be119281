/** One admitted request of an attached session, under the project's operation barrier. */
module Dispatching {
  import opened Outcomes
  import opened Sources
  import opened Checkpoints
  import opened Prover
  import opened Coherence
  import opened Requests
  import opened Hosts
  import opened Engine
  import opened Writeback
  import opened Runtime
  import opened Attempts
  import opened Checking
  import opened Tools
  import opened Answers

  /**
   * What every tool promises: coherent unless it says otherwise, no graph and no file touched unless
   * it committed, no identifier reused, "cancelled" answered only when cancelled, and no exported
   * state left behind except where `Explained` says so.
   */
  twostate predicate Served(rt: ProjectRuntime, host: Host, s: Session, request: Request, new r: EngineResult<Reply>, new leak: set<Handle>,
                            new peril: Peril, new acc: Account)
    requires s in old(rt.sessions)
    reads rt, rt.actor, host
  {
    && Guarded(rt, host, r)
    && (!host.request.Committed? ==> Untouched(rt, host))
    && Aged(old(rt.sessions), rt.sessions)
    && Answered(rt, host, s, request, r, peril, acc)
    && (SaysCancelled(r) ==> host.request.IsCancelled())
    && (Intact(r) && !rt.actor.silentLoss ==> rt.Loose() <= old(rt.Loose()) + leak)
    && leak <= rt.Loose()
    && Explained(host.script, old(host.era), old(host.Clock()), host.Clock(), old(rt.sessions)[s], request, r, leak, peril)
    && (!peril.Publication? ==> host.era == old(host.era))
    && (peril.Validation? && Spilling(host.script, peril) ==> Missed(old(rt.actor.epoch), rt.actor.epoch, old(rt.sessions), leak))
  }

  /** An error touched no graph and no file; an answer means what `Does` says, in the environment and the epoch it left behind. */
  twostate predicate Answered(rt: ProjectRuntime, host: Host, s: Session, request: Request, new r: EngineResult<Reply>, new peril: Peril,
                              new acc: Account)
    requires s in old(rt.sessions)
    reads rt, rt.actor, host
  {
    && (r.Err? ==> Untouched(rt, host))
    && (r.Ok? ==> acc.env == Loaded(rt.actor.process) && acc.epoch == rt.actor.epoch
                  && Does(host.script, rt.actor.rocq, old(host.era), old(host.Clock()), host.Clock(), old(rt.sessions), rt.sessions,
                          old(host.log), host.log, s, request, r.value, peril, acc))
    && (acc.artifacts == old(rt.artifacts) || acc.artifacts == map[])
  }

  /** What a tool that leaves nothing behind promises. */
  twostate predicate Handled(rt: ProjectRuntime, host: Host, s: Session, request: Request, new r: EngineResult<Reply>, new acc: Account)
    requires s in old(rt.sessions)
    reads rt, rt.actor, host
  {
    && Kept(rt, host, r) && Aged(old(rt.sessions), rt.sessions) && (!host.request.Committed? ==> Untouched(rt, host))
    && Answered(rt, host, s, request, r, Safe, acc) && host.era == old(host.era)
  }

  /** What is written down about a tool, before anything particular to it. */
  twostate function Seen(rt: ProjectRuntime, host: Host): Account
    reads rt, rt.actor, host
  {
    Blank(Loaded(rt.actor.process), rt.actor.epoch, old(host.Now()), old(rt.artifacts))
  }

  /** A missed look left exactly this behind. */
  ghost predicate Missed(before: nat, after: nat, books: map<Session, Book>, leak: set<Handle>) {
    before <= after && leak == Forsaken(after == before, books)
  }

  method DispatchAttached(rt: ProjectRuntime, host: Host, s: Session, request: Request)
      returns (r: EngineResult<Reply>, ghost leak: set<Handle>, ghost peril: Peril, ghost acc: Account)
    requires rt.Sound() && s in rt.sessions
    modifies rt, rt.actor, host
    ensures Served(rt, host, s, request, r, leak, peril, acc)
    ensures acc.artifacts == old(rt.artifacts)
  {
    hide Does;
    if request.CheckThese? {
      r, leak, peril, acc := DispatchCheck(rt, host, s, request.fragments, request.deadline);
    } else if request.ProveIt? {
      r, leak, peril, acc := DispatchProve(rt, host, s, request.file, request.name);
    } else {
      leak, peril := {}, Safe;
      r, acc := DispatchPlain(rt, host, s, request);
    }
  }

  method DispatchCheck(rt: ProjectRuntime, host: Host, s: Session, fragments: seq<Text>, deadline: bool)
      returns (r: EngineResult<Reply>, ghost leak: set<Handle>, ghost peril: Peril, ghost acc: Account)
    requires rt.Sound() && s in rt.sessions
    modifies rt, rt.actor, host
    ensures Served(rt, host, s, CheckThese(fragments, deadline), r, leak, peril, acc) && acc.artifacts == old(rt.artifacts)
  {
    hide Does, Chosen, PublishedFully, PublishedOnly, ClosesAfter, Explained, Aged, Orphans, Coherent, AllPublishable, LeftBehind;
    host.Arrived();
    var checked; ghost var trace, begun, start;
    checked, trace, begun, leak, start := Check(rt, host, s, fragments, deadline);
    r := Map(checked, c => Reply.Checked(c));
    acc := Seen(rt, host).(evaluations := trace, begun := begun);
    peril := PerilOf(old(rt.sessions)[s], checked, fragments, start);
    if checked.Ok? {
      ChosenAged(rt.actor.rocq, old(rt.sessions), rt.sessions, s, fragments, trace, checked.value);
      CheckDoes(host.script, rt.actor.rocq, old(host.era), old(host.Clock()), host.Clock(), old(rt.sessions), rt.sessions,
                old(host.log), host.log, s, fragments, deadline, checked.value, start, acc);
    } else {
      SameTreesAged(old(rt.sessions), rt.sessions);
    }
    CheckExplained(host.script, old(host.era), old(host.Now()), host.Clock(), old(rt.sessions)[s], fragments, deadline, checked, leak, start);
  }

  lemma ChosenAged(rocq: Rocq, before: map<Session, Book>, after: map<Session, Book>, s: Session, fragments: seq<Text>,
                   trace: seq<Evaluation>, checked: Checked)
    requires Chosen(rocq, before, after, s, fragments, trace, checked)
    ensures Aged(before, after) && (checked.Selected? ==> checked.index < |fragments| && checked.error != Some(RequestCancelled))
  {
    if checked.Selected? {
      AdvancedAged(before, after, s, trace[checked.index].answer.step, fragments[checked.index], checked.checkpoint);
    } else {
      SameTreesAged(before, after);
    }
  }

  /** What a `check` promises is what its answer means. */
  lemma CheckDoes(script: nat -> Event, rocq: Rocq, era: Era, from: nat, to: nat, before: map<Session, Book>, after: map<Session, Book>,
                  log: seq<Effect>, later: seq<Effect>, s: Session, fragments: seq<Text>, deadline: bool, checked: Checked,
                  start: Option<Moment>, acc: Account)
    requires Chosen(rocq, before, after, s, fragments, acc.evaluations, checked) && PublishedOnly(log, later, acc.begun)
    requires AttemptTimedOut in checked.refusals ==> deadline
    requires start.Some? ==> checked.Selected? && acc.evaluations[checked.index].answer.step.finished
                             && ClosesAfter(rocq, acc.evaluations[checked.index].from, fragments[checked.index], before[s].proof.value.target.kind)
    requires start.None? ==> acc.begun.None? && (checked.Selected? ==>
                               checked.checkpoint.Some? && (checked.error.Some? <==> acc.evaluations[checked.index].answer.step.finished))
    requires acc.begun.Some? ==> checked.Selected? && Rewrites(rocq, before[s].proof.value, fragments[checked.index], acc.begun.value)
    requires checked.Selected? && checked.checkpoint.None? && checked.error.None? ==>
               acc.begun.Some? && start.Some?
               && PublishedFully(script, rocq, start.value, log, later, to, before[s].proof.value.target, acc.epoch, acc.begun.value)
    ensures Does(script, rocq, era, from, to, before, after, log, later, s, CheckThese(fragments, deadline), Reply.Checked(checked),
                 PerilOf(before[s], Ok(checked), fragments, start), acc)
  {
    hide PublishedOnly, PublishedFully, Advanced, ClosesAfter, Rewrites;
    if checked.Selected? {
      AdvancedSelects(before, after, s, acc.evaluations[checked.index].answer.step, fragments[checked.index], checked.checkpoint);
    }
  }

  /** What a `check` put at stake, given the moment its publication began. */
  ghost function PerilOf(book: Book, checked: EngineResult<Checked>, fragments: seq<Text>, start: Option<Moment>): Peril {
    if start.None? || book.proof.None? then Safe
    else Peril.Publication(start.value, book.proof.value.target, PathWith(book.proof.value, Taken(checked, fragments)))
  }

  lemma CheckExplained(script: nat -> Event, era: Era, now: Moment, to: nat, book: Book, fragments: seq<Text>, deadline: bool,
                       checked: EngineResult<Checked>, leak: set<Handle>, start: Option<Moment>)
    requires book.proof.None? ==> checked.Err? && leak == {} && start == None
    requires book.proof.Some? ==>
               LeftBehind(script, start, book.proof.value.target, PathWith(book.proof.value, Taken(checked, fragments)), leak)
    requires start.Some? ==>
               && checked.Ok? && checked.value.Selected? && checked.value.index < |fragments|
               && Within(script, era, now.clock, to, start.value) && start.value.request.Committed?
               && now.clock < start.value.clock && Holds(script, now.clock, now.disk, book.proof.value.target)
    requires now.disk == era.At(script, now.clock)
    requires start.None? && checked.Ok? && checked.value.Selected? ==> checked.value.checkpoint.Some?
    ensures var peril := PerilOf(book, checked, fragments, start);
            && Explained(script, era, now.clock, to, book, CheckThese(fragments, deadline), Map(checked, c => Reply.Checked(c)), leak, peril)
            && (leak != {} <==> Spilling(script, peril))
  {
    if start.Some? {
      assert HeldEarlier(script, era, now.clock, start.value.clock, book.proof.value.target);
    }
  }

  method DispatchProve(rt: ProjectRuntime, host: Host, s: Session, file: File, name: seq<string>)
      returns (r: EngineResult<Reply>, ghost leak: set<Handle>, ghost peril: Peril, ghost acc: Account)
    requires rt.Sound() && s in rt.sessions
    modifies rt, rt.actor, host`since, host`request, host`log
    ensures Served(rt, host, s, ProveIt(file, name), r, leak, peril, acc) && acc.artifacts == old(rt.artifacts)
  {
    hide Does, Founded, FoundIn, Explained, Coherent, Orphans, Aged;
    var proving; ghost var backing, begun, look;
    proving, backing, begun, leak, look := Prove(rt, host, s, file, name);
    r := Map(proving, p => Proved(p));
    peril := if look.Some? then Validation(look.value) else Safe;
    acc := Seen(rt, host).(root := begun, backing := Some(backing));
    OpeningAged(old(rt.sessions), rt.sessions, s, file, name, proving, begun, host.request.Committed?);
    if proving.Ok? {
      ProveDoes(host.script, rt.actor.rocq, old(host.era), old(host.Clock()), host.Clock(), old(rt.sessions), rt.sessions,
                old(host.log), host.log, s, file, name, proving.value, look, host.request.Committed?, acc);
    }
    LookExplained(host.script, old(host.era), old(host.Clock()), host.Clock(), old(rt.sessions)[s], file, name, proving, leak, look);
  }

  /** What `prove` promises is what its answer means. */
  lemma ProveDoes(script: nat -> Event, rocq: Rocq, era: Era, from: nat, to: nat, before: map<Session, Book>, after: map<Session, Book>,
                  log: seq<Effect>, later: seq<Effect>, s: Session, file: File, name: seq<string>, proving: Proving, look: Option<Glance>,
                  committed: bool, acc: Account)
    requires s in before && Opening(before, after, s, file, name, Ok(proving), acc.root, committed) && Calm(log, later)
    requires proving.Began? ==> FoundIn(rocq, acc.env, acc.root.value.target, false)
    requires proving.Completed? ==> acc.backing.Some? && Founded(script, rocq, era, log, later, to, acc.epoch, look, acc.backing.value)
    ensures Does(script, rocq, era, from, to, before, after, log, later, s, ProveIt(file, name), Proved(proving),
                 if look.Some? then Validation(look.value) else Safe, acc)
  {
    hide FoundIn, Certified, Revetted;
  }

  lemma OpeningAged(was: map<Session, Book>, now: map<Session, Book>, s: Session, file: File, name: seq<string>, r: EngineResult<Proving>,
                    begun: Option<Opened>, committed: bool)
    requires Opening(was, now, s, file, name, r, begun, committed)
    ensures Aged(was, now) && (!committed ==> SameTrees(was, now))
  {
    if r.Ok? && r.value.Began? {
      OpensAged(was, now, s, begun.value, r.value.id);
    } else {
      SameTreesAged(was, now);
    }
  }

  lemma LookExplained(script: nat -> Event, era: Era, from: nat, to: nat, book: Book, file: File, name: seq<string>,
                      r: EngineResult<Proving>, leak: set<Handle>, look: Option<Glance>)
    requires leak != {} ==> Misses(script, look)
    requires Misses(script, look) ==> r == Err(DeclarationChanged)
    requires look.Some? ==> Within(script, era, from, to, look.value.at) && Reads(look.value, file, name)
    ensures var peril := if look.Some? then Validation(look.value) else Safe;
            && Explained(script, era, from, to, book, ProveIt(file, name), Map(r, p => Proved(p)), leak, peril)
            && (Spilling(script, peril) <==> Misses(script, look))
  {
  }

  /** The tools that never leave anything behind. */
  method DispatchPlain(rt: ProjectRuntime, host: Host, s: Session, request: Request) returns (r: EngineResult<Reply>, ghost acc: Account)
    requires rt.Sound() && s in rt.sessions && !request.CheckThese? && !request.ProveIt?
    modifies rt, rt.actor, host`since, host`request, host`log
    ensures Served(rt, host, s, request, r, {}, Safe, acc) && acc.artifacts == old(rt.artifacts)
  {
    hide Does, Aged, SameTrees, Orphans, Coherent, AllWellFormed, AllPublishable;
    if request.DeclareIt? {
      r, acc := DispatchDeclare(rt, host, s, request.file, request.name, request.kind, request.header);
    } else if request.AbandonIt? {
      r, acc := DispatchAbandon(rt, host, s, request.file, request.name);
    } else if request.RewindTo? {
      r, acc := DispatchRewind(rt, host, s, request.to);
    } else {
      r, acc := DispatchReadOnly(rt, host, s, request);
    }
    if r.Ok? {
      DoesFit(host.script, rt.actor.rocq, old(host.era), old(host.Clock()), host.Clock(), old(rt.sessions), rt.sessions,
              old(host.log), host.log, s, request, r.value, Safe, acc);
    }
  }

  method DispatchDeclare(rt: ProjectRuntime, host: Host, s: Session, file: File, name: seq<string>, kind: Kind, header: Text)
      returns (r: EngineResult<Reply>, ghost acc: Account)
    requires rt.Sound() && s in rt.sessions
    modifies rt, rt.actor, host`since, host`request, host`log
    ensures Handled(rt, host, s, DeclareIt(file, name, kind, header), r, acc) && acc.artifacts == old(rt.artifacts)
  {
    var id; ghost var begun;
    id, begun := DeclareProof(rt, host, s, file, name, kind, header);
    r := Map(id, c => Declared(c));
    acc := Seen(rt, host).(root := begun);
    if id.Ok? {
      OpensAged(old(rt.sessions), rt.sessions, s, begun.value, id.value);
    } else {
      SameTreesAged(old(rt.sessions), rt.sessions);
    }
  }

  method DispatchAbandon(rt: ProjectRuntime, host: Host, s: Session, file: File, name: seq<string>) returns (r: EngineResult<Reply>, ghost acc: Account)
    requires rt.Sound() && s in rt.sessions
    modifies rt, rt.actor, host`since, host`request
    ensures Handled(rt, host, s, AbandonIt(file, name), r, acc) && acc.artifacts == old(rt.artifacts)
    ensures r.Ok? <==> host.request.Committed? && Mine(old(rt.sessions)[s], file, name)
  {
    var abandoned := Abandon(rt, host, s, file, name);
    r := Map(abandoned, u => Done);
    acc := Seen(rt, host);
    if abandoned.Ok? {
      ClearedAged(old(rt.sessions), rt.sessions, s);
    } else {
      SameTreesAged(old(rt.sessions), rt.sessions);
    }
  }

  method DispatchRewind(rt: ProjectRuntime, host: Host, s: Session, to: Destination) returns (r: EngineResult<Reply>, ghost acc: Account)
    requires rt.Sound() && s in rt.sessions
    modifies rt, rt.actor, host`since, host`request, host`log
    ensures Handled(rt, host, s, RewindTo(to), r, acc) && acc.artifacts == old(rt.artifacts)
  {
    hide Moved, SameTree, Path, Coherent, Orphans;
    var id := Rewind(rt, host, s, to);
    r := Map(id, c => At(c));
    acc := Seen(rt, host);
    if id.Ok? {
      MovedAged(old(rt.sessions), rt.sessions, s, id.value);
      MovedSelects(old(rt.sessions), rt.sessions, s, id.value);
    } else {
      SameTreesAged(old(rt.sessions), rt.sessions);
    }
  }

  /** The tools that change no graph. */
  method DispatchReadOnly(rt: ProjectRuntime, host: Host, s: Session, request: Request) returns (r: EngineResult<Reply>, ghost acc: Account)
    requires rt.Sound() && s in rt.sessions && !request.CheckThese? && !request.ProveIt? && !request.DeclareIt? && !request.AbandonIt? && !request.RewindTo?
    modifies rt, rt.actor, host`since, host`request, host`log
    ensures Handled(rt, host, s, request, r, acc) && acc.artifacts == old(rt.artifacts)
  {
    hide Does;
    if request.TryThese? {
      r, acc := DispatchTry(rt, host, s, request.fragments, request.deadline);
    } else if request.LookIn? {
      r, acc := DispatchSurvey(rt, host, s, request.files);
    } else if request.ShowGoals? {
      r, acc := DispatchGoals(rt, host, s);
    } else {
      r, acc := DispatchQuery(rt, host, s, request);
    }
    SameTreesAged(old(rt.sessions), rt.sessions);
  }

  method DispatchTry(rt: ProjectRuntime, host: Host, s: Session, fragments: seq<Text>, deadline: bool)
      returns (r: EngineResult<Reply>, ghost acc: Account)
    requires rt.Sound() && s in rt.sessions
    modifies rt, rt.actor, host`since, host`request, host`log
    ensures Kept(rt, host, r) && Untouched(rt, host) && Answered(rt, host, s, TryThese(fragments, deadline), r, Safe, acc)
    ensures acc.artifacts == old(rt.artifacts)
  {
    var tried; ghost var trace;
    tried, trace := TryFragments(rt, host, s, fragments, deadline);
    r := Map(tried, t => Reply.Tried(t));
    acc := Seen(rt, host).(evaluations := trace);
  }

  method DispatchSurvey(rt: ProjectRuntime, host: Host, s: Session, files: seq<File>) returns (r: EngineResult<Reply>, ghost acc: Account)
    requires rt.Sound() && s in rt.sessions
    modifies rt, rt.actor, host`since, host`request, host`log
    ensures Kept(rt, host, r) && Untouched(rt, host) && Answered(rt, host, s, LookIn(files), r, Safe, acc)
    ensures acc.artifacts == old(rt.artifacts)
  {
    host.Arrived();
    var looked; ghost var trace, ending;
    looked, trace, ending := Survey(rt, host, s, files);
    r := Map(looked, u => Done);
    acc := Seen(rt, host).(rounds := trace);
  }

  method DispatchGoals(rt: ProjectRuntime, host: Host, s: Session) returns (r: EngineResult<Reply>, ghost acc: Account)
    requires rt.Sound() && s in rt.sessions
    modifies rt, rt.actor, host`since, host`request, host`log
    ensures Kept(rt, host, r) && Untouched(rt, host) && Answered(rt, host, s, ShowGoals, r, Safe, acc)
    ensures acc.artifacts == old(rt.artifacts)
  {
    var base := AdmitBase(rt, host, s);
    r := Map(base, c => At(c));
    acc := Seen(rt, host);
    assert SameTree(old(rt.sessions)[s], rt.sessions[s]);
  }

  /** A query, or no tool at all. */
  method DispatchQuery(rt: ProjectRuntime, host: Host, s: Session, request: Request) returns (r: EngineResult<Reply>, ghost acc: Account)
    requires rt.Sound() && s in rt.sessions
    requires request.Ask? || request.AskAt? || request.AskInProof? || request.ListFiles? || request.UnknownTool?
    modifies rt, rt.actor, host`since, host`request, host`log
    ensures Kept(rt, host, r) && Untouched(rt, host) && Answered(rt, host, s, request, r, Safe, acc)
    ensures acc.artifacts == old(rt.artifacts)
  {
    if request.Ask? {
      r, acc := DispatchAsk(rt, host, s, request.file, request.name, request.command);
    } else if request.AskAt? {
      r, acc := DispatchAskAt(rt, host, s, request.file, request.name, request.command);
    } else if request.AskInProof? {
      r, acc := DispatchAskInProof(rt, host, s, request.command);
    } else {
      acc := Seen(rt, host);
      r := if request.ListFiles? then Ok(Done) else Err(InvalidRequest);
    }
  }

  method DispatchAsk(rt: ProjectRuntime, host: Host, s: Session, file: File, name: seq<string>, command: Text)
      returns (r: EngineResult<Reply>, ghost acc: Account)
    requires rt.Sound() && s in rt.sessions
    modifies rt, rt.actor, host`since, host`request, host`log
    ensures Kept(rt, host, r) && Untouched(rt, host) && Answered(rt, host, s, Ask(file, name, command), r, Safe, acc)
    ensures acc.artifacts == old(rt.artifacts)
  {
    hide IsSelected, IsPlaced;
    var done; ghost var asked, at;
    done, asked, at := AskAbout(rt, host, s, file, name, command);
    r := Map(done, u => Done);
    acc := Seen(rt, host).(asked := asked, at := at);
  }

  method DispatchAskAt(rt: ProjectRuntime, host: Host, s: Session, file: File, name: seq<string>, command: Text)
      returns (r: EngineResult<Reply>, ghost acc: Account)
    requires rt.Sound() && s in rt.sessions
    modifies rt, rt.actor, host`since, host`request, host`log
    ensures Kept(rt, host, r) && Untouched(rt, host) && Answered(rt, host, s, AskAt(file, name, command), r, Safe, acc)
    ensures acc.artifacts == old(rt.artifacts)
  {
    hide IsPlaced;
    var done; ghost var asked, at;
    done, asked, at := AskPlaced(rt, host, s, file, name, command);
    r := Map(done, u => Done);
    acc := Seen(rt, host).(asked := asked, at := at);
  }

  method DispatchAskInProof(rt: ProjectRuntime, host: Host, s: Session, command: Text) returns (r: EngineResult<Reply>, ghost acc: Account)
    requires rt.Sound() && s in rt.sessions
    modifies rt, rt.actor, host`since, host`request, host`log
    ensures Kept(rt, host, r) && Untouched(rt, host) && Answered(rt, host, s, AskInProof(command), r, Safe, acc)
    ensures acc.artifacts == old(rt.artifacts)
  {
    hide IsSelected;
    var done; ghost var asked;
    done, asked := AskSelected(rt, host, s, command);
    r := Map(done, u => Done);
    acc := Seen(rt, host).(asked := asked);
  }

  /** What the world answers when asked whether the project's view changed; a cancellation comes first. */
  function Admission(e: Event, request: RequestState): EngineResult<bool> {
    if Deliver(request, e.signal).IsCancelled() then Err(RequestCancelled)
    else match e.layoutChanged
      case Ok(changed) => Ok(changed)
      case Err(k) => Err(k)
  }

  /** Ask whether Dune's view of the project changed; if it did, what the prover loaded is void. */
  method RefreshLayout(rt: ProjectRuntime, host: Host, s: Session) returns (r: EngineResult<()>)
    requires rt.Sound() && s in rt.sessions
    modifies rt, rt.actor`process, rt.actor`epoch, rt.actor`silentLoss, host`since, host`request
    ensures rt.Sound() && SameTrees(old(rt.sessions), rt.sessions) && OnlyInterrupted(old(host.request), host.request)
    ensures rt.Loose() <= old(rt.Loose()) && Onward(rt, host)
    ensures r.Err? || rt.actor.epoch == old(rt.actor.epoch) ==>
              rt.sessions == old(rt.sessions) && rt.actor.process == old(rt.actor.process) && rt.artifacts == old(rt.artifacts)
    ensures r.Err? && InvalidatesEpoch(r.error) ==> r.error.RequestCancelled? && host.request.IsCancelled()
    ensures rt.actor.epoch != old(rt.actor.epoch) ==>
              rt.artifacts == map[] && rt.actor.process == None && rt.Loose() == {} && rt.sessions == InvalidateAll(old(rt.sessions))
    ensures host.Clock() == old(host.Clock()) + 1 && host.Disk() == Edited(old(host.Disk()), host.script(old(host.Clock())).edit)
            && host.request == Deliver(old(host.request), host.script(old(host.Clock())).signal)
    ensures var verdict := Admission(host.script(old(host.Clock())), old(host.request));
            && (if verdict.Ok? then r == Ok(()) else r == Err(verdict.error))
            && rt.actor.epoch == old(rt.actor.epoch) + (if verdict == Ok(true) then 1 else 0)
  {
    var e := host.Observe();
    if host.request.IsCancelled() { return Err(RequestCancelled); }
    if e.layoutChanged.Err? { return Err(e.layoutChanged.error); }
    if e.layoutChanged.value {
      rt.artifacts := map[];
      rt.BeginEpoch(s);
    }
    r := Ok(());
  }

  /**
   * One whole request. Whatever it meets, it leaves the project coherent; a request that did not
   * commit changed no graph and no file; one that committed never answers "cancelled", not even
   * inside a selected answer; no checkpoint identifier is reused; and exported states lose their
   * owner exactly where `Explained` says. An answer means what `Does` says. A request cancelled
   * before it is admitted, or one that finds the project's view gone, gets to no tool.
   */
  method Dispatch(rt: ProjectRuntime, host: Host, s: Session, request: Request)
      returns (r: EngineResult<Reply>, ghost leak: set<Handle>, ghost peril: Peril, ghost acc: Account)
    requires rt.Sound() && s in rt.sessions
    modifies rt, rt.actor, host
    ensures Served(rt, host, s, request, r, leak, peril, acc)
    ensures !rt.actor.silentLoss ==> rt.Sound() && rt.Loose() <= old(rt.Loose()) + leak
    ensures old(host.request).IsCancelled() ==> r == Err(RequestCancelled) && host.Clock() == old(host.Clock())
    ensures var verdict := Admission(host.script(old(host.Clock())), old(host.request));
            !old(host.request).IsCancelled() ==>
              && (verdict.Err? ==> r == Err(verdict.error) && host.Clock() == old(host.Clock()) + 1)
              && (verdict == Ok(true) ==> old(rt.actor.epoch) < rt.actor.epoch)
  {
    hide Does, Explained, Aged, Missed, SameTrees, Orphans, Coherent, AllWellFormed, AllPublishable, SaysCancelled, InvalidatesEpoch;
    var admitted := Admit(rt, host, s);
    ghost var mid, epoch, loose, from := rt.sessions, rt.actor.epoch, rt.Loose(), host.Clock();
    r, leak, peril, acc := AttendIf(rt, host, s, request, admitted);
    ToldEarlier(host.script, rt.actor.rocq, old(host.era), old(host.Clock()), from, host.Clock(), old(rt.sessions), mid, rt.sessions,
                old(host.log), host.log, s, request, r, leak, peril, acc);
    MissedEarlier(old(rt.actor.epoch), epoch, rt.actor.epoch, old(rt.sessions), mid, leak);
    LooseBefore(old(rt.Loose()), loose, rt.Loose(), leak);
    assert Spared(rt) && Upheld(rt, host, r);
  }

  /** Go on with an admitted request. */
  method AttendIf(rt: ProjectRuntime, host: Host, s: Session, request: Request, admitted: EngineResult<()>)
      returns (r: EngineResult<Reply>, ghost leak: set<Handle>, ghost peril: Peril, ghost acc: Account)
    requires rt.Sound() && s in rt.sessions
    requires admitted.Err? && InvalidatesEpoch(admitted.error) ==> admitted.error.RequestCancelled? && host.request.IsCancelled()
    modifies rt, rt.actor, host
    ensures Served(rt, host, s, request, r, leak, peril, acc)
    ensures !rt.actor.silentLoss ==> rt.Sound() && rt.Loose() <= old(rt.Loose()) + leak
    ensures admitted.Err? ==> r == Err(admitted.error) && host.Clock() == old(host.Clock())
  {
    hide Does, Explained, Aged, Missed, SameTrees, Orphans, Coherent, SaysCancelled;
    if admitted.Err? {
      r, acc := Refuse(rt, host, s, request, admitted.error);
      leak, peril := {}, Safe;
    } else {
      r, leak, peril, acc := Attend(rt, host, s, request);
      Excuse(rt);
    }
  }

  /** Answer without having done anything. */
  method Refuse(rt: ProjectRuntime, host: Host, s: Session, request: Request, error: ErrorKind) returns (r: EngineResult<Reply>, ghost acc: Account)
    requires rt.Sound() && s in rt.sessions
    requires InvalidatesEpoch(error) ==> error.RequestCancelled? && host.request.IsCancelled()
    ensures Served(rt, host, s, request, r, {}, Safe, acc) && r == Err(error)
  {
    SameTreesAged(rt.sessions, rt.sessions);
    r, acc := Err(error), Seen(rt, host);
  }

  /** A loss nobody was told of matters to nobody while no session holds a handle. */
  method Excuse(rt: ProjectRuntime)
    requires rt.Valid()
    modifies rt.actor`silentLoss
    ensures rt.actor.silentLoss ==> old(rt.actor.silentLoss)
    ensures old(rt.actor.silentLoss) && !rt.actor.silentLoss ==> rt.Sound() && rt.Loose() == {}
    ensures rt.actor.silentLoss && rt.actor.process.None? ==> exists h :: Held(rt.sessions, h)
  {
    BareHoldsNothing(rt.sessions);
    if rt.actor.process.None? && Bare(rt.sessions) {
      rt.actor.silentLoss := false;
      CoherentAfterLoss(rt.actor.rocq, rt.sessions);
    }
  }

  lemma ExplainedEarlier(script: nat -> Event, era: Era, from: nat, mid: nat, to: nat, was: map<Session, Book>, books: map<Session, Book>,
                         s: Session, request: Request, r: EngineResult<Reply>, leak: set<Handle>, peril: Peril)
    requires AllWellFormed(was) && AllWellFormed(books) && SameTrees(was, books) && s in was && from <= mid
    ensures Explained(script, era, mid, to, books[s], request, r, leak, peril) ==> Explained(script, era, from, to, was[s], request, r, leak, peril)
  {
    assert SameTree(was[s], books[s]);
    if was[s].proof.Some? {
      SameSelection(was, books, s);
    }
  }

  lemma MissedEarlier(first: nat, mid: nat, last: nat, books: map<Session, Book>, later: map<Session, Book>, leak: set<Handle>)
    requires first <= mid && later == (if mid == first then books else InvalidateAll(books))
    ensures Missed(mid, last, later, leak) ==> Missed(first, last, books, leak)
  {
    NothingLeftToForget(books);
  }

  /** What is told of a request that was admitted holds from before its admission, which moves no graph. */
  lemma ToldEarlier(script: nat -> Event, rocq: Rocq, era: Era, start: nat, from: nat, to: nat, was: map<Session, Book>, books: map<Session, Book>,
                    now: map<Session, Book>, log: seq<Effect>, later: seq<Effect>, s: Session, request: Request, r: EngineResult<Reply>,
                    leak: set<Handle>, peril: Peril, acc: Account)
    requires AllWellFormed(was) && AllWellFormed(books) && SameTrees(was, books) && s in was && start <= from && Aged(books, now)
    ensures Aged(was, now) && (SameTrees(books, now) ==> SameTrees(was, now))
    ensures Explained(script, era, from, to, books[s], request, r, leak, peril) ==> Explained(script, era, start, to, was[s], request, r, leak, peril)
    ensures r.Ok? && Does(script, rocq, era, from, to, books, now, log, later, s, request, r.value, peril, acc) ==>
              Does(script, rocq, era, start, to, was, now, log, later, s, request, r.value, peril, acc)
  {
    hide Does, Explained;
    SameTreesAged(was, books);
    AgedChain(was, books, now);
    ExplainedEarlier(script, era, start, from, to, was, books, s, request, r, leak, peril);
    if SameTrees(books, now) {
      SameTreesChain(was, books, now);
    }
    if r.Ok? && Does(script, rocq, era, from, to, books, now, log, later, s, request, r.value, peril, acc) {
      DoesEarlier(script, rocq, era, start, from, to, was, books, now, log, later, s, request, r.value, peril, acc);
    }
  }

  /** A request that is not cancelled before or while the project's view is refreshed. */
  method Admit(rt: ProjectRuntime, host: Host, s: Session) returns (r: EngineResult<()>)
    requires rt.Sound() && s in rt.sessions
    modifies rt, rt.actor`process, rt.actor`epoch, rt.actor`silentLoss, host`since, host`request
    ensures rt.Sound() && SameTrees(old(rt.sessions), rt.sessions) && OnlyInterrupted(old(host.request), host.request)
    ensures rt.Loose() <= old(rt.Loose()) && Onward(rt, host)
    ensures rt.sessions == if rt.actor.epoch == old(rt.actor.epoch) then old(rt.sessions) else InvalidateAll(old(rt.sessions))
    ensures r.Err? && InvalidatesEpoch(r.error) ==> r.error.RequestCancelled? && host.request.IsCancelled()
    ensures rt.artifacts == old(rt.artifacts) || rt.artifacts == map[]
    ensures host.Clock() == old(host.Clock()) + (if old(host.request).IsCancelled() then 0 else 1)
    ensures old(host.request).IsCancelled() ==> r == Err(RequestCancelled)
    ensures var verdict := Admission(host.script(old(host.Clock())), old(host.request));
            !old(host.request).IsCancelled() ==>
              && (if verdict.Ok? then r == Ok(()) else r == Err(verdict.error))
              && (verdict == Ok(true) ==> old(rt.actor.epoch) < rt.actor.epoch)
  {
    if host.request.IsCancelled() { return Err(RequestCancelled); }
    r := RefreshLayout(rt, host, s);
    if r.Ok? && host.request.IsCancelled() { return Err(RequestCancelled); }
  }

  /** Run the tool; an error that ends the epoch makes every session of the project forget its handles. */
  method Attend(rt: ProjectRuntime, host: Host, s: Session, request: Request)
      returns (r: EngineResult<Reply>, ghost leak: set<Handle>, ghost peril: Peril, ghost acc: Account)
    requires rt.Sound() && s in rt.sessions
    modifies rt, rt.actor, host
    ensures Served(rt, host, s, request, r, leak, peril, acc)
    ensures !rt.actor.silentLoss ==> rt.Sound() && rt.Loose() <= old(rt.Loose()) + leak
    ensures r == Err(RequestCancelled) ==> rt.actor.process == None
    ensures !Intact(r) ==> rt.Loose() == {}
  {
    hide Does;
    r, leak, peril, acc := DispatchAttached(rt, host, s, request);
    if Intact(r) { return; }
    NothingSpilled(host.script, old(host.era), old(host.Clock()), host.Clock(), old(rt.sessions)[s], request, r, leak, peril);
    ghost var books := rt.sessions;
    EndEpoch(rt, s, r.error.RequestCancelled?);
    AgedChain(old(rt.sessions), books, rt.sessions);
    SameTreesChain(old(rt.sessions), books, rt.sessions);
  }

  /** An error that ends the epoch leaves nothing behind. */
  lemma NothingSpilled(script: nat -> Event, era: Era, from: nat, to: nat, book: Book, request: Request, r: EngineResult<Reply>,
                       leak: set<Handle>, peril: Peril)
    requires Explained(script, era, from, to, book, request, r, leak, peril) && !Intact(r)
    ensures leak == {} && !peril.Publication? && !Spilling(script, peril) && r.Err?
  {
  }

  /** The epoch is over: a cancelled request ends the process as well. */
  method EndEpoch(rt: ProjectRuntime, s: Session, restart: bool)
    requires rt.Valid() && s in rt.sessions && (restart || Table(rt.actor.process) == map[])
    modifies rt`sessions, rt.actor`process, rt.actor`epoch, rt.actor`silentLoss
    ensures rt.Sound() && rt.Loose() == {} && Table(rt.actor.process) == map[] && (restart ==> rt.actor.process == None)
    ensures SameTrees(old(rt.sessions), rt.sessions) && Aged(old(rt.sessions), rt.sessions)
    ensures old(rt.actor.epoch) <= rt.actor.epoch && Spared(rt)
    ensures !restart ==> rt.actor.process == old(rt.actor.process) && rt.actor.epoch == old(rt.actor.epoch)
  {
    if restart {
      rt.actor.Restart();
    }
    rt.InvalidateProjectStates(s);
    SameTreesAged(old(rt.sessions), rt.sessions);
  }
}
