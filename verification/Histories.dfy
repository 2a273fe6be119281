/** What a whole run of the server did, action by action, and when nothing can be lost in it. */
module Histories {
  import opened Outcomes
  import opened Sources
  import opened Checkpoints
  import opened Prover
  import opened Coherence
  import opened Hosts
  import opened Engine
  import opened Splicing
  import opened Writeback
  import opened Publishing
  import opened Checking
  import opened Tools
  import opened Answers
  import opened Dispatching

  /** One thing that happens to the server. */
  datatype Action =
    | Connect(session: Session)
    | Start(session: Session, project: nat)
    | Serve(session: Session, request: Request)
    | Disconnect(session: Session)
    | Release(session: Session)

  /**
   * A session whose last reference is gone and whose release waits for its project: its book as it
   * was. No boundary reaches it any more. `epoch` is the model's own note of the epoch it was in,
   * dropped when a late release of another closed session may have taken its identifiers.
   */
  datatype Leaving = Leaving(project: nat, epoch: Option<nat>, book: Book)

  /** The identifiers closed sessions of a project are still to give back. */
  ghost function Promised(waiting: map<Session, Leaving>, k: nat): set<Handle> {
    set s, h | s in waiting && waiting[s].project == k && h in HandlesOf(waiting[s].book) :: h
  }

  lemma PromisedGrows(waiting: map<Session, Leaving>, s: Session, l: Leaving)
    requires s !in waiting
    ensures forall k: nat :: Promised(waiting[s := l], k) == Promised(waiting, k) + if k == l.project then HandlesOf(l.book) else {}
  {
    forall k: nat ensures Promised(waiting[s := l], k) == Promised(waiting, k) + if k == l.project then HandlesOf(l.book) else {} {
      PromisedGrowsIn(waiting, s, l, k);
    }
  }

  lemma PromisedGrowsIn(waiting: map<Session, Leaving>, s: Session, l: Leaving, k: nat)
    requires s !in waiting
    ensures Promised(waiting[s := l], k) == Promised(waiting, k) + if k == l.project then HandlesOf(l.book) else {}
  {
    var now := waiting[s := l];
    var more := if k == l.project then HandlesOf(l.book) else {};
    forall h: Handle | h in more ensures h in Promised(now, k) {
      assert s in now && now[s] == l;
    }
    forall h: Handle | h in Promised(waiting, k) ensures h in Promised(now, k) {
      var t :| t in waiting && waiting[t].project == k && h in HandlesOf(waiting[t].book);
      assert t in now && now[t] == waiting[t];
    }
    forall h: Handle | h in Promised(now, k) ensures h in Promised(waiting, k) + more {
      var t :| t in now && now[t].project == k && h in HandlesOf(now[t].book);
      if t != s {
        assert t in waiting && waiting[t] == now[t];
      }
    }
  }

  /** The others; after a late release nothing is known any more of those of the same project. */
  function Remaining(waiting: map<Session, Leaving>, s: Session, late: bool): map<Session, Leaving>
    requires s in waiting
  {
    map t | t in waiting && t != s :: if late && waiting[t].project == waiting[s].project then waiting[t].(epoch := None) else waiting[t]
  }

  lemma StillPromised(waiting: map<Session, Leaving>, s: Session, late: bool)
    requires s in waiting
    ensures forall k: nat :: Promised(waiting, k) - (if k == waiting[s].project then HandlesOf(waiting[s].book) else {})
                             <= Promised(Remaining(waiting, s, late), k)
  {
    forall k: nat
      ensures Promised(waiting, k) - (if k == waiting[s].project then HandlesOf(waiting[s].book) else {})
              <= Promised(Remaining(waiting, s, late), k)
    {
      var now := Remaining(waiting, s, late);
      var given := if k == waiting[s].project then HandlesOf(waiting[s].book) else {};
      forall h: Handle | h in Promised(waiting, k) - given ensures h in Promised(now, k) {
        var t :| t in waiting && waiting[t].project == k && h in HandlesOf(waiting[t].book);
        assert t in now && now[t].project == k && now[t].book == waiting[t].book;
      }
    }
  }

  /** The books of the sessions attached to each project. */
  type Graphs = seq<map<Session, Book>>

  /** Where the server stands between two actions. */
  datatype Standing = Standing(clock: nat, era: Era, log: seq<Effect>, graphs: Graphs)

  /**
   * What one action was: where it began, where it ended, whether it committed, what it put at stake,
   * and, for a request, what was answered and what that was read off.
   */
  datatype Chapter = Chapter(before: Standing, after: Standing, committed: bool, peril: Peril, reply: Option<EngineResult<Reply>>, acc: Account)

  /**
   * What a request of session `s` does to the graphs: it leaves every session where it is and takes no
   * identifier back; an uncommitted one moves no graph, and none moves a graph of a project its session
   * is not attached to.
   */
  ghost predicate Advances(before: Graphs, after: Graphs, s: Session, committed: bool) {
    && |before| == |after|
    && forall i :: 0 <= i < |before| ==>
         && before[i].Keys == after[i].Keys && Aged(before[i], after[i])
         && (!committed || s !in before[i] ==> SameTrees(before[i], after[i]))
  }

  lemma OneAdvances(before: Graphs, after: Graphs, s: Session, committed: bool, k: nat)
    requires |before| == |after| && forall i :: 0 <= i < |before| && i != k ==> before[i] == after[i]
    requires k < |before| ==> s in before[k] && before[k].Keys == after[k].Keys && Aged(before[k], after[k])
                              && (!committed ==> SameTrees(before[k], after[k]))
    ensures Advances(before, after, s, committed)
  {
    forall i | 0 <= i < |before| && i != k ensures Aged(before[i], after[i]) && SameTrees(before[i], after[i]) {
      SameTreesAged(before[i], after[i]);
    }
  }

  /** What a request put at stake is its own: its session's proof, the alternative it tried, and a moment of its stretch of time. */
  ghost predicate Stakes(script: nat -> Event, era: Era, from: nat, to: nat, book: Book, request: Request, peril: Peril) {
    match peril
    case Safe => true
    case Publication(at, target, path) =>
      && request.CheckThese? && book.proof.Some? && target == book.proof.value.target
      && (exists k :: 0 <= k < |request.fragments| && path == PathWith(book.proof.value, request.fragments[k]))
      && Within(script, era, from, to, at) && at.request.Committed? && HeldEarlier(script, era, from, at.clock, target)
    case Validation(glance) =>
      request.ProveIt? && Within(script, era, from, to, glance.at) && Reads(glance, request.file, request.name)
  }

  /** `Explained` without the answer. */
  lemma ExplainedIsStaked(script: nat -> Event, era: Era, from: nat, to: nat, book: Book, request: Request, r: EngineResult<Reply>,
                          leak: set<Handle>, peril: Peril)
    requires Explained(script, era, from, to, book, request, r, leak, peril)
    ensures Stakes(script, era, from, to, book, request, peril)
  {
  }

  /** It was a request of an attached session, with the book the session had when it began. */
  ghost predicate StakesIn(script: nat -> Event, action: Action, ch: Chapter, i: nat) {
    && i < |ch.before.graphs| && action.Serve? && action.session in ch.before.graphs[i]
    && Stakes(script, ch.before.era, ch.before.clock, ch.after.clock, ch.before.graphs[i][action.session], action.request, ch.peril)
  }

  /** The session was attached to project `i`: an answer means what was done there, an error that nothing was. */
  ghost predicate RepliesIn(script: nat -> Event, rocq: Rocq, action: Action, ch: Chapter, i: nat) {
    && i < |ch.before.graphs| && i < |ch.after.graphs| && action.Serve? && action.session in ch.before.graphs[i] && ch.reply.Some?
    && match ch.reply.value
       case Err(_) => SameTrees(ch.before.graphs[i], ch.after.graphs[i]) && Calm(ch.before.log, ch.after.log)
       case Ok(reply) =>
         Does(script, rocq, ch.before.era, ch.before.clock, ch.after.clock, ch.before.graphs[i], ch.after.graphs[i],
              ch.before.log, ch.after.log, action.session, action.request, reply, ch.peril, ch.acc)
  }

  /** The session was attached to no project, and nothing happened. */
  ghost predicate TurnedAway(action: Action, ch: Chapter) {
    && action.Serve? && ch.after == ch.before && ch.reply == Some(Err(InvalidRequest)) && ch.peril == Safe
    && forall i :: 0 <= i < |ch.before.graphs| ==> action.session !in ch.before.graphs[i]
  }

  /**
   * A chapter is about its action: only a request puts anything at stake or writes, its answer means what
   * it did, and only a publication begins another era.
   */
  ghost predicate Tells(script: nat -> Event, rocq: Rocq, action: Action, ch: Chapter) {
    && ch.before.clock <= ch.after.clock && (ch.peril.Publication? || ch.after.era == ch.before.era)
    && (action.Serve? ==> Advances(ch.before.graphs, ch.after.graphs, action.session, ch.committed))
    && (if action.Serve? then TurnedAway(action, ch) || exists i: nat :: StakesIn(script, action, ch, i) && RepliesIn(script, rocq, action, ch, i)
        else ch.peril == Safe && ch.reply.None? && ch.after.log == ch.before.log)
  }

  lemma RequestTells(script: nat -> Event, rocq: Rocq, action: Action, before: Standing, after: Standing, committed: bool, place: Option<nat>,
                     r: EngineResult<Reply>, leak: set<Handle>, peril: Peril, acc: Account)
    requires action.Serve? && before.clock <= after.clock && (peril.Publication? || after.era == before.era)
    requires Advances(before.graphs, after.graphs, action.session, committed)
    requires match place
             case None =>
               && peril == Safe && r == Err(InvalidRequest) && after == before
               && forall i :: 0 <= i < |before.graphs| ==> action.session !in before.graphs[i]
             case Some(k) =>
               && k < |before.graphs| && k < |after.graphs| && action.session in before.graphs[k]
               && Explained(script, before.era, before.clock, after.clock, before.graphs[k][action.session], action.request, r, leak, peril)
               && (r.Err? ==> SameTrees(before.graphs[k], after.graphs[k]) && Calm(before.log, after.log))
               && (r.Ok? ==> Does(script, rocq, before.era, before.clock, after.clock, before.graphs[k], after.graphs[k],
                                  before.log, after.log, action.session, action.request, r.value, peril, acc))
    ensures Tells(script, rocq, action, Chapter(before, after, committed, peril, Some(r), acc))
  {
    hide Does, Explained, Stakes, Advances;
    var ch := Chapter(before, after, committed, peril, Some(r), acc);
    match place
    case None => assert TurnedAway(action, ch);
    case Some(k) =>
      ExplainedIsStaked(script, before.era, before.clock, after.clock, before.graphs[k][action.session], action.request, r, leak, peril);
      assert StakesIn(script, action, ch, k) && RepliesIn(script, rocq, action, ch, k);
  }

  /** One chapter for each action, each beginning exactly where the one before ended. */
  ghost predicate Chronicle(script: nat -> Event, rocq: Rocq, actions: seq<Action>, chapters: seq<Chapter>, from: Standing, to: Standing) {
    if chapters == [] then to == from
    else
      var n := |chapters| - 1;
      && n < |actions| && Tells(script, rocq, actions[n], chapters[n]) && chapters[n].after == to
      && Chronicle(script, rocq, actions, chapters[..n], from, chapters[n].before)
  }

  lemma ChronicleGrows(script: nat -> Event, rocq: Rocq, actions: seq<Action>, chapters: seq<Chapter>, from: Standing, ch: Chapter)
    requires |chapters| < |actions| && Tells(script, rocq, actions[|chapters|], ch)
    requires Chronicle(script, rocq, actions, chapters, from, ch.before)
    ensures Chronicle(script, rocq, actions, chapters + [ch], from, ch.after)
  {
    assert (chapters + [ch])[..|chapters|] == chapters;
  }

  /** Over a whole run of requests no checkpoint identifier comes back, in any project. */
  lemma {:induction false} NoIdentifierComesBack(script: nat -> Event, rocq: Rocq, actions: seq<Action>, chapters: seq<Chapter>, from: Standing, to: Standing)
    requires Chronicle(script, rocq, actions, chapters, from, to)
    requires forall i :: 0 <= i < |chapters| && i < |actions| ==> actions[i].Serve?
    ensures |from.graphs| == |to.graphs|
    ensures forall i :: 0 <= i < |from.graphs| ==> from.graphs[i].Keys == to.graphs[i].Keys && Aged(from.graphs[i], to.graphs[i])
    decreases |chapters|
  {
    hide Does, Stakes;
    if chapters == [] {
      forall i | 0 <= i < |from.graphs| ensures Aged(from.graphs[i], to.graphs[i]) {
        SameTreesAged(from.graphs[i], to.graphs[i]);
      }
    } else {
      var n := |chapters| - 1;
      var mid := chapters[n].before;
      NoIdentifierComesBack(script, rocq, actions, chapters[..n], from, mid);
      forall i | 0 <= i < |from.graphs| ensures Aged(from.graphs[i], to.graphs[i]) {
        AgedChain(from.graphs[i], mid.graphs[i], to.graphs[i]);
      }
    }
  }

  /** A run without a `check` writes no file, whatever else it asks for. */
  lemma {:induction false} OnlyChecksWrite(script: nat -> Event, rocq: Rocq, actions: seq<Action>, chapters: seq<Chapter>, from: Standing, to: Standing)
    requires Chronicle(script, rocq, actions, chapters, from, to)
    requires forall i :: 0 <= i < |chapters| && i < |actions| && actions[i].Serve? ==> !actions[i].request.CheckThese?
    ensures Calm(from.log, to.log)
    decreases |chapters|
  {
    hide Advances, Stakes, SameTrees;
    if chapters != [] {
      var n := |chapters| - 1;
      var ch := chapters[n];
      OnlyChecksWrite(script, rocq, actions, chapters[..n], from, ch.before);
      if actions[n].Serve? && !TurnedAway(actions[n], ch) {
        var i: nat :| StakesIn(script, actions[n], ch, i) && RepliesIn(script, rocq, actions[n], ch, i);
        assert Calm(ch.before.log, to.log);
      }
      CalmOn(from.log, ch.before.log, to.log);
    }
  }

  /** In a gentle world a run loses nothing. */
  lemma {:induction false} GentleRun(script: nat -> Event, rocq: Rocq, actions: seq<Action>, chapters: seq<Chapter>, from: Standing, to: Standing)
    requires Chronicle(script, rocq, actions, chapters, from, to) && Gentle(script)
    ensures SpillFree(script, chapters)
    decreases |chapters|
  {
    hide Does, Advances, Stakes, SameTrees, Calm;
    if chapters != [] {
      var n := |chapters| - 1;
      var ch := chapters[n];
      GentleRun(script, rocq, actions, chapters[..n], from, ch.before);
      if ch.peril != Safe {
        var i: nat :| StakesIn(script, actions[n], ch, i) && RepliesIn(script, rocq, actions[n], ch, i);
        GentleLosesNothing(script, ch.before.era, ch.before.clock, ch.after.clock, ch.before.graphs[i][actions[n].session], actions[n].request, ch.peril);
      }
      SpillFreeAppend(script, chapters[..n], ch);
      assert chapters[..n] + [ch] == chapters;
    }
  }

  /** Nothing that was put at stake was lost. */
  ghost predicate SpillFree(script: nat -> Event, chapters: seq<Chapter>) {
    forall i :: 0 <= i < |chapters| ==> !Spilling(script, chapters[i].peril)
  }

  lemma SpillFreeAppend(script: nat -> Event, chapters: seq<Chapter>, ch: Chapter)
    ensures SpillFree(script, chapters + [ch]) <==> SpillFree(script, chapters) && !Spilling(script, ch.peril)
  {
    var all := chapters + [ch];
    assert all[|chapters|] == ch;
    assert forall i :: 0 <= i < |chapters| ==> all[i] == chapters[i];
  }

  /** Nobody else writes to any file, every file can be read, and every write goes through. */
  ghost predicate Gentle(script: nat -> Event) {
    forall t: nat :: script(t).edit.None? && script(t).readable && script(t).selected && script(t).write.Persisted?
  }

  /** In such a world nothing that is tied to its action can be lost. */
  lemma GentleLosesNothing(script: nat -> Event, era: Era, from: nat, to: nat, book: Book, request: Request, peril: Peril)
    requires Gentle(script) && Stakes(script, era, from, to, book, request, peril)
    ensures !Spilling(script, peril)
  {
    match peril
    case Safe =>
    case Validation(glance) =>
    case Publication(at, target, path) =>
      var t: nat :| from <= t < at.clock && Holds(script, t, era.At(script, t), target);
      EraStays(script, era, t);
      EraStays(script, era, at.clock);
      NeverStuck(script, at, target, path);
  }

  /** So no request of a gentle world leaves anything behind, whatever it met otherwise. */
  lemma GentleRequest(script: nat -> Event, era: Era, from: nat, to: nat, book: Book, request: Request, r: EngineResult<Reply>,
                      leak: set<Handle>, peril: Peril)
    requires Gentle(script) && from <= to && Explained(script, era, from, to, book, request, r, leak, peril)
    ensures leak == {}
  {
    GentleLosesNothing(script, era, from, to, book, request, peril);
  }

  /** In a gentle world a `check` leaves nothing behind, given no more than what it promises. */
  lemma GentleCheck(script: nat -> Event, era: Era, now: Moment, to: nat, book: Book, fragments: seq<Text>, deadline: bool,
                    checked: EngineResult<Checked>, leak: set<Handle>, start: Option<Moment>)
    requires Gentle(script) && book.proof.Some? && now.clock <= to && now.disk == era.At(script, now.clock)
    requires LeftBehind(script, start, book.proof.value.target, PathWith(book.proof.value, Taken(checked, fragments)), leak)
    requires start.Some? ==>
               && checked.Ok? && checked.value.Selected? && checked.value.index < |fragments|
               && Within(script, era, now.clock, to, start.value) && start.value.request.Committed?
               && now.clock < start.value.clock && Holds(script, now.clock, now.disk, book.proof.value.target)
    requires start.None? && checked.Ok? && checked.value.Selected? ==> checked.value.checkpoint.Some?
    ensures leak == {}
  {
    CheckExplained(script, era, now, to, book, fragments, deadline, checked, leak, start);
    GentleRequest(script, era, now.clock, to, book, CheckThese(fragments, deadline), Map(checked, c => Reply.Checked(c)), leak,
                  PerilOf(book, checked, fragments, start));
  }

  /** And so does a `prove`. */
  lemma GentleProve(script: nat -> Event, era: Era, from: nat, to: nat, book: Book, file: File, name: seq<string>,
                    r: EngineResult<Proving>, leak: set<Handle>, look: Option<Glance>)
    requires Gentle(script) && from <= to
    requires leak != {} ==> Misses(script, look)
    requires Misses(script, look) ==> r == Err(DeclarationChanged)
    requires look.Some? ==> Within(script, era, from, to, look.value.at) && Reads(look.value, file, name)
    ensures leak == {}
  {
    LookExplained(script, era, from, to, book, file, name, r, leak, look);
    GentleRequest(script, era, from, to, book, ProveIt(file, name), Map(r, p => Proved(p)), leak,
                  if look.Some? then Validation(look.value) else Safe);
  }

  lemma EraStays(script: nat -> Event, era: Era, t: nat)
    requires Gentle(script)
    ensures era.At(script, t) == era.disk
  {
    if t >= era.start {
      DriftFree(script, era.start, t - era.start, era.disk);
    }
  }

  lemma NeverStuck(script: nat -> Event, m: Moment, target: Target, path: seq<Text>)
    requires Gentle(script)
    ensures !Sticks(script, m, target, path)
  {
    if Begins(script, m, target, path) {
      var w := Writing(script, m);
      var p := Prepared(target.file, target.source, Replacement(target.source, target, path).value);
      var at := EarlyLook(script, w.clock, w.request, w.disk, p);
      assert script(at).write.Persisted?;
    }
  }

  /** Every session that closes gives back at once. */
  ghost predicate Prompt(actions: seq<Action>) {
    && (forall i :: 0 <= i < |actions| && actions[i].Disconnect? ==> i + 1 < |actions| && actions[i + 1] == Release(actions[i].session))
    && (forall i :: 0 <= i < |actions| && actions[i].Release? ==> 0 < i && actions[i - 1] == Disconnect(actions[i].session))
  }

  /** Then nobody waits but the session that closed just before. */
  lemma OneAtATime(actions: seq<Action>, n: nat, was: set<Session>, now: set<Session>)
    requires Prompt(actions) && n < |actions|
    requires if 0 < n && actions[n - 1].Disconnect? then was <= {actions[n - 1].session} else was == {}
    requires match actions[n]
             case Disconnect(s) => now == was || now == was + {s}
             case Release(s) => now == was - {s}
             case _ => now == was
    ensures if actions[n].Disconnect? then now <= {actions[n].session} else now == {}
  {
  }
}
