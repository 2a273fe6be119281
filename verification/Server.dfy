/** Any number of connections over any number of projects, and every history they can make together. */
module Server {
  import opened Outcomes
  import opened Checkpoints
  import opened Prover
  import opened Coherence
  import opened Hosts
  import opened Pet
  import opened Engine
  import opened Writeback
  import opened Runtime
  import opened Answers
  import opened Dispatching
  import opened Sessions
  import opened Histories

  ghost function GraphsOf(projects: seq<ProjectRuntime>): (graphs: Graphs)
    reads projects
    ensures |graphs| == |projects| && forall i :: 0 <= i < |graphs| ==> graphs[i] == projects[i].sessions
  {
    if projects == [] then []
    else GraphsOf(projects[..|projects| - 1]) + [projects[|projects| - 1].sessions]
  }

  class ServerRuntime {
    const rocq: Rocq
    var runtimes: seq<ProjectRuntime>
    /** Connections attached to no project. */
    var idle: map<Session, Book>
    /** Closed connections that have not given back yet. */
    var closing: map<Session, Leaving>

    ghost function Actors(): set<PetActor>
      reads this`runtimes
    {
      set i | 0 <= i < |runtimes| :: runtimes[i].actor
    }

    /** No project is listed twice, no two share a prover, and every prover is of the one Rocq. */
    ghost predicate Separate()
      reads this`runtimes
    {
      && (forall i :: 0 <= i < |runtimes| ==> runtimes[i].actor.rocq == rocq)
      && forall i, j :: 0 <= i < j < |runtimes| ==> runtimes[i] != runtimes[j] && runtimes[i].actor != runtimes[j].actor
    }

    /** The invariant of every reachable server: each project is coherent, each session is in one place. */
    ghost predicate Valid()
      reads this, runtimes, Actors()
    {
      && AllSound()
      && OnePlaceEach()
      && (forall s :: s in idle ==> idle[s].proof.None? && WellFormed(idle[s]))
      && AllWait()
    }

    ghost predicate AllSound()
      reads this`runtimes, runtimes, Actors()
    {
      Separate() && forall i :: 0 <= i < |runtimes| ==> runtimes[i].Sound()
    }

    ghost predicate OnePlaceEach()
      reads this`runtimes, this`idle, this`closing, runtimes
    {
      && (forall i, j, s :: 0 <= i < |runtimes| && 0 <= j < |runtimes| && s in runtimes[i].sessions && s in runtimes[j].sessions ==> i == j)
      && (forall i, s :: 0 <= i < |runtimes| && s in runtimes[i].sessions ==> s !in idle && s !in closing)
      && idle.Keys !! closing.Keys
    }

    /** While no boundary came in between, what a closed session held is still exported and nobody else holds it. */
    ghost predicate Waits(l: Leaving)
      reads this`runtimes, runtimes, Actors()
    {
      l.project < |runtimes| &&
      var rt := runtimes[l.project];
      l.epoch.Some? ==> l.epoch.value <= rt.actor.epoch && (l.epoch.value == rt.actor.epoch ==> HandlesOf(l.book) <= rt.Loose())
    }

    /** Two of them never hold the same. */
    ghost predicate Apart(a: Leaving, b: Leaving) {
      a.project == b.project && a.epoch == b.epoch && a.epoch.Some? ==> HandlesOf(a.book) !! HandlesOf(b.book)
    }

    ghost predicate AllWait()
      reads this`runtimes, this`closing, runtimes, Actors()
    {
      && (forall s :: s in closing ==> Waits(closing[s]))
      && (forall s, t :: s in closing && t in closing && s != t ==> Apart(closing[s], closing[t]))
    }

    /** The books of the sessions attached to each project. */
    ghost function Attached(): Graphs
      reads this`runtimes, runtimes
    {
      GraphsOf(runtimes)
    }

    ghost function At(host: Host): Standing
      reads this`runtimes, runtimes, host
    {
      Standing(host.Clock(), host.era, host.log, Attached())
    }

    /** Some project's handles may have lost their meaning, and nobody was told. */
    predicate Untold()
      reads this`runtimes, runtimes, Actors()
    {
      exists i | 0 <= i < |runtimes| :: runtimes[i].actor.silentLoss
    }

    /** Every state a project's prover exports belongs to a checkpoint, or is about to be given back. */
    ghost predicate Owned()
      reads this`runtimes, this`closing, runtimes, Actors()
    {
      forall i :: 0 <= i < |runtimes| ==> runtimes[i].Loose() <= Promised(closing, i)
    }

    constructor (rocq: Rocq)
      ensures Owned() && Valid() && runtimes == [] && idle == map[] && closing == map[]
    {
      this.rocq := rocq;
      runtimes, idle, closing := [], map[], map[];
    }

    /** The project a session is attached to, if any. */
    method Find(s: Session) returns (k: Option<nat>)
      requires Valid()
      ensures k.Some? ==> k.value < |runtimes| && s in runtimes[k.value].sessions
      ensures k.None? ==> forall i :: 0 <= i < |runtimes| ==> s !in runtimes[i].sessions
    {
      for i := 0 to |runtimes|
        invariant forall j :: 0 <= j < i ==> s !in runtimes[j].sessions
      {
        if s in runtimes[i].sessions { return Some(i); }
      }
      k := None;
    }

    method Join(s: Session)
      requires Valid()
      modifies this`idle
      ensures Valid() && (old(Owned()) ==> Owned())
      ensures if s !in old(idle) && s !in closing && (forall i :: 0 <= i < |runtimes| ==> s !in runtimes[i].sessions)
              then idle == old(idle)[s := Book(0, None)] else idle == old(idle)
    {
      var k := Find(s);
      if k.None? && s !in idle && s !in closing {
        idle := idle[s := Book(0, None)];
      }
    }

    /** One project moved on, the others were left alone: nothing a closed session waits for was lost. */
    twostate lemma StillWaiting(k: nat)
      requires old(AllWait()) && closing == old(closing) && runtimes == old(runtimes) && k < |runtimes|
      requires old(runtimes[k].actor.epoch) <= runtimes[k].actor.epoch && Spared(runtimes[k])
      requires forall i :: 0 <= i < |runtimes| && i != k ==>
                 runtimes[i].actor.epoch == old(runtimes[i].actor.epoch) && runtimes[i].Loose() == old(runtimes[i].Loose())
      ensures AllWait()
    {
      forall s | s in closing ensures Waits(closing[s]) {
        assert old(Waits(closing[s]));
      }
      forall s, t | s in closing && t in closing && s != t ensures Apart(closing[s], closing[t]) {
        assert old(Apart(closing[s], closing[t]));
      }
    }

    /** One project got no more states without an owner, the others were left alone. */
    twostate lemma StillOwned(k: nat)
      requires closing == old(closing) && runtimes == old(runtimes) && k < |runtimes|
      requires runtimes[k].Loose() <= old(runtimes[k].Loose())
      requires forall i :: 0 <= i < |runtimes| && i != k ==> runtimes[i].Loose() == old(runtimes[i].Loose())
      ensures old(Owned()) ==> Owned()
    {
    }

    /**
     * How every action ends: coherent unless handles lost their meaning where nobody could be told,
     * and with every exported state owned unless something spilled.
     */
    twostate predicate Ended(host: Host, new peril: Peril)
      reads this, runtimes, Actors(), host
    {
      && (Valid() || Untold())
      && (old(Owned()) && !Untold() && !Spilling(host.script, peril) ==> Owned())
    }

    /** In project `k` an error changed nothing, and an answer means what was done. */
    twostate predicate Replied(host: Host, k: nat, s: Session, request: Request, new r: EngineResult<Reply>, new peril: Peril, new acc: Account)
      requires k < |old(Attached())| && s in old(Attached())[k] && |Attached()| == |old(Attached())|
      reads this, runtimes, host
    {
      && (r.Err? ==> SameTrees(old(Attached())[k], Attached()[k]) && Calm(old(host.log), host.log))
      && (r.Ok? ==> Does(host.script, rocq, old(host.era), old(host.Clock()), host.Clock(), old(Attached())[k], Attached()[k],
                         old(host.log), host.log, s, request, r.value, peril, acc))
    }

    /**
     * One request. Unless the prover was lost where nobody could be told, every project is coherent;
     * exported states lose their owner exactly where `Explained` says; and the answer means what
     * `Does` says.
     */
    method Handle(host: Host, s: Session, request: Request)
        returns (r: EngineResult<Reply>, ghost leak: set<Handle>, ghost peril: Peril, ghost place: Option<nat>, ghost acc: Account)
      requires Valid()
      modifies runtimes, Actors(), host
      ensures Ended(host, peril) && host.Later() && (NoSwallowedLoss(host.script) ==> !Untold())
      ensures SaysCancelled(r) ==> host.request.IsCancelled()
      ensures !host.request.Committed? ==> Calm(old(host.log), host.log)
      ensures Advances(old(Attached()), Attached(), s, host.request.Committed?)
      ensures match place
              case None =>
                && (forall i :: 0 <= i < |runtimes| ==> s !in old(runtimes[i].sessions))
                && r == Err(InvalidRequest) && leak == {} && peril == Safe && At(host) == old(At(host))
              case Some(k) =>
                && k < |old(Attached())| && s in old(Attached())[k]
                && Explained(host.script, old(host.era), old(host.Clock()), host.Clock(), old(Attached())[k][s], request, r, leak, peril)
                && Replied(host, k, s, request, r, peril, acc)
      ensures !peril.Publication? ==> host.era == old(host.era)
    {
      hide Valid, Owned, Untold, Does, Explained, Spilling, Advances, SameTrees;
      var k := Find(s);
      place := k;
      if k.None? {
        TurnAway(host, s);
        r, leak, peril, acc := Err(InvalidRequest), {}, Safe, Blank(None, 0, host.Now(), map[]);
      } else {
        r, leak, peril, acc := HandleIn(host, k.value, s, request);
      }
    }

    /** A session attached to nothing is told so, and nothing happens. */
    lemma TurnAway(host: Host, s: Session)
      requires Valid()
      ensures !Untold() && Advances(Attached(), Attached(), s, host.request.Committed?)
    {
      OneAdvances(Attached(), Attached(), s, host.request.Committed?, |runtimes|);
    }

    method HandleIn(host: Host, k: nat, s: Session, request: Request)
        returns (r: EngineResult<Reply>, ghost leak: set<Handle>, ghost peril: Peril, ghost acc: Account)
      requires Valid() && k < |runtimes| && s in runtimes[k].sessions
      modifies runtimes[k], runtimes[k].actor, host
      ensures Ended(host, peril) && Advances(old(Attached()), Attached(), s, host.request.Committed?) && host.Later() && (NoSwallowedLoss(host.script) ==> !Untold())
      ensures SaysCancelled(r) ==> host.request.IsCancelled()
      ensures !host.request.Committed? ==> Calm(old(host.log), host.log)
      ensures Explained(host.script, old(host.era), old(host.Clock()), host.Clock(), old(runtimes[k].sessions)[s], request, r, leak, peril)
      ensures !peril.Publication? ==> host.era == old(host.era)
      ensures Replied(host, k, s, request, r, peril, acc)
    {
      ghost var before := Attached();
      hide Does, Explained, Spilling, SameTrees;
      r, leak, peril, acc := Delegate(host, k, s, request);
      OneAdvances(before, Attached(), s, host.request.Committed?, k);
    }

    /** One request in its own project; every other project is not touched at all. */
    method Delegate(host: Host, k: nat, s: Session, request: Request)
        returns (r: EngineResult<Reply>, ghost leak: set<Handle>, ghost peril: Peril, ghost acc: Account)
      requires Valid() && k < |runtimes| && s in runtimes[k].sessions
      modifies runtimes[k], runtimes[k].actor, host
      ensures Ended(host, peril) && host.Later() && (NoSwallowedLoss(host.script) ==> !Untold())
      ensures SaysCancelled(r) ==> host.request.IsCancelled()
      ensures !host.request.Committed? ==> Calm(old(host.log), host.log)
      ensures runtimes[k].sessions.Keys == old(runtimes[k].sessions.Keys)
      ensures Aged(old(runtimes[k].sessions), runtimes[k].sessions)
      ensures !host.request.Committed? ==> SameTrees(old(runtimes[k].sessions), runtimes[k].sessions)
      ensures Explained(host.script, old(host.era), old(host.Clock()), host.Clock(), old(runtimes[k].sessions)[s], request, r, leak, peril)
      ensures !peril.Publication? ==> host.era == old(host.era)
      ensures r.Err? ==> SameTrees(old(runtimes[k].sessions), runtimes[k].sessions) && Calm(old(host.log), host.log)
      ensures r.Ok? ==> Does(host.script, rocq, old(host.era), old(host.Clock()), host.Clock(), old(runtimes[k].sessions), runtimes[k].sessions,
                             old(host.log), host.log, s, request, r.value, peril, acc)
    {
      hide Does, Explained, Spilling, Aged, SameTrees, Calm;
      r, leak, peril, acc := Dispatch(runtimes[k], host, s, request);
      UnspiltIsKept(host.script, old(host.era), old(host.Clock()), host.Clock(), old(runtimes[k].sessions)[s], request, r, leak, peril);
      StillWaiting(k);
    }

    /** The last reference to a session is gone. */
    method Leave(s: Session)
      requires Valid()
      modifies this`idle, this`closing, runtimes
      ensures Valid() && (old(Owned()) ==> Owned())
      ensures s !in closing ==> closing == old(closing)
      ensures s in closing ==> closing == old(closing)[s := closing[s]]
      ensures s in closing && s !in old(closing) ==> closing[s].project < |runtimes| && closing[s].epoch == Some(runtimes[closing[s].project].actor.epoch)
    {
      var k := Find(s);
      if k.None? {
        Vanish(s);
      } else {
        var _ := LeaveFrom(k.value, s);
      }
    }

    method Vanish(s: Session)
      requires Valid()
      modifies this`idle
      ensures Valid() && (old(Owned()) ==> Owned())
    {
      idle := idle - {s};
    }

    method LeaveFrom(k: nat, s: Session) returns (l: Leaving)
      requires Valid() && k < |runtimes| && s in runtimes[k].sessions
      modifies this`closing, runtimes[k]
      ensures Valid() && (old(Owned()) ==> Owned())
      ensures s !in old(closing) && closing == old(closing)[s := l]
      ensures l == Leaving(k, Some(runtimes[k].actor.epoch), old(runtimes[k].sessions)[s])
    {
      var book := Unlist(runtimes[k], s);
      l := Leaving(k, Some(runtimes[k].actor.epoch), book);
      closing := closing[s := l];
      assert AllSound() && OnePlaceEach();
      forall t | t in closing ensures Waits(closing[t]) {
        assert t != s ==> old(Waits(closing[t]));
      }
      forall t, u | t in closing && u in closing && t != u ensures Apart(closing[t], closing[u]) {
        assert t != s ==> old(Waits(closing[t]));
        assert u != s ==> old(Waits(closing[u]));
        assert t != s && u != s ==> old(Apart(closing[t], closing[u]));
      }
      PromisedGrows(old(closing), s, l);
    }

    /** A closed session gives back what it held. It is late when a boundary came in between. */
    method Settle(host: Host, s: Session)
      requires Valid()
      modifies this`closing, Actors(), host`since, host`request
      ensures Ended(host, Safe) && host.Later() && closing.Keys == old(closing.Keys) - {s}
      ensures NoSwallowedLoss(host.script) && old(Timely(Release(s))) ==> !Untold()
      ensures s in old(closing) ==>
                var l := old(closing)[s]; var rt := runtimes[l.project];
                rt.Sound() <==> if rt.actor.process.Some? then Unclaimed(rt.sessions, HandlesOf(l.book))
                                else old(rt.actor.process).Some? ==> forall h :: !Held(rt.sessions, h)
    {
      if s !in closing { return; }
      assert Waits(closing[s]);
      SettleIn(host, s, closing[s].project);
    }

    method SettleIn(host: Host, s: Session, k: nat)
      requires Valid() && s in closing && closing[s].project == k < |runtimes|
      modifies this`closing, runtimes[k].actor, host`since, host`request
      ensures Ended(host, Safe) && host.Later() && closing.Keys == old(closing.Keys) - {s}
      ensures NoSwallowedLoss(host.script) && old(closing)[s].epoch == Some(old(runtimes[k].actor.epoch)) ==> !Untold()
      ensures var rt := runtimes[k];
              rt.Sound() <==> if rt.actor.process.Some? then Unclaimed(rt.sessions, HandlesOf(old(closing)[s].book))
                              else old(rt.actor.process).Some? ==> forall h :: !Held(rt.sessions, h)
    {
      var l, late := closing[s], closing[s].epoch != Some(runtimes[k].actor.epoch);
      StillPromised(closing, s, late);
      Forward(k, s, late);
      ReturnTo(host, k, l);
      forall i | old(Owned()) && 0 <= i < |runtimes| ensures runtimes[i].Loose() <= Promised(closing, i) {
        assert old(runtimes[i].Loose() <= Promised(closing, i));
      }
    }

    /** The session that gives back leaves the queue. */
    method Forward(k: nat, s: Session, late: bool)
      requires Valid() && s in closing && closing[s].project == k < |runtimes|
      requires late <==> closing[s].epoch != Some(runtimes[k].actor.epoch)
      modifies this`closing
      ensures Valid() && closing == Remaining(old(closing), s, late)
      ensures Waits(old(closing)[s]) && SetApart(old(closing)[s])
    {
      ghost var l := closing[s];
      assert forall t :: t in closing && t != s ==> Apart(l, closing[t]) && Waits(closing[t]);
      closing := Remaining(closing, s, late);
      forall t | t in closing ensures Waits(closing[t]) {
        assert old(Waits(closing[t]));
      }
      forall t, u | t in closing && u in closing && t != u ensures Apart(closing[t], closing[u]) {
        assert old(Apart(closing[t], closing[u]));
      }
    }

    /** While the project's epoch is the same, nobody who waits has an identifier of this one. */
    ghost predicate SetApart(l: Leaving)
      reads this`runtimes, this`closing, runtimes, Actors()
    {
      l.project < |runtimes| &&
      forall t :: t in closing && closing[t].project == l.project && closing[t].epoch == Some(runtimes[l.project].actor.epoch) ==>
        HandlesOf(l.book) !! HandlesOf(closing[t].book)
    }

    /** The release itself; every other project is left alone. */
    method ReturnTo(host: Host, k: nat, l: Leaving)
      requires Valid() && k < |runtimes| && l.project == k && Waits(l) && SetApart(l)
      modifies runtimes[k].actor, host`since, host`request
      ensures (Valid() || Untold()) && host.Later()
      ensures NoSwallowedLoss(host.script) && l.epoch == Some(old(runtimes[k].actor.epoch)) ==> !Untold()
      ensures var rt := runtimes[k];
              rt.Sound() <==> if rt.actor.process.Some? then Unclaimed(rt.sessions, HandlesOf(l.book))
                              else old(rt.actor.process).Some? ==> forall h :: !Held(rt.sessions, h)
      ensures runtimes[k].Loose() <= old(runtimes[k].Loose()) - HandlesOf(l.book)
    {
      OnTime(k, l);
      GiveBack(runtimes[k], host, l.book);
    }

    /** A timely release names nothing any attached checkpoint holds. */
    lemma OnTime(k: nat, l: Leaving)
      requires k < |runtimes| && l.project == k && Waits(l)
      ensures l.epoch == Some(runtimes[k].actor.epoch) ==> Unclaimed(runtimes[k].sessions, HandlesOf(l.book))
    {
    }

    /** A release is timely when no boundary came between the session's last reference and now. */
    ghost predicate Timely(action: Action)
      reads this`runtimes, this`closing, runtimes, Actors()
    {
      action.Release? && action.session in closing ==>
        var l := closing[action.session];
        l.project < |runtimes| && l.epoch == Some(runtimes[l.project].actor.epoch)
    }

    /** The runtimes of the projects a call did not create were there before it. */
    twostate predicate OnlyNew()
      reads this, runtimes
    {
      && (forall i :: 0 <= i < |runtimes| ==> runtimes[i] in old(runtimes) || fresh(runtimes[i]))
      && (forall i :: 0 <= i < |runtimes| ==> runtimes[i].actor in old(Actors()) || fresh(runtimes[i].actor))
    }

    /** The one runtime of a project, created on first attach. */
    method Ensure(k: nat)
      requires Valid()
      modifies this`runtimes
      ensures Valid() && OnlyNew() && old(runtimes) <= runtimes && (old(Owned()) ==> Owned())
      ensures k <= |old(runtimes)| ==> k < |runtimes|
      ensures k != |old(runtimes)| ==> runtimes == old(runtimes)
    {
      if k == |runtimes| {
        Create();
      }
    }

    method Create()
      requires Valid()
      modifies this`runtimes
      ensures Valid() && OnlyNew() && |runtimes| == |old(runtimes)| + 1 && old(runtimes) <= runtimes && (old(Owned()) ==> Owned())
    {
      var rt := new ProjectRuntime(rocq);
      Append(rt);
    }

    method Append(rt: ProjectRuntime)
      requires Valid() && rt !in runtimes && rt.actor !in Actors()
      requires rt.Sound() && rt.sessions == map[] && rt.actor.process == None && rt.actor.rocq == rocq
      modifies this`runtimes
      ensures Valid() && runtimes == old(runtimes) + [rt] && (old(Owned()) ==> Owned())
    {
      assert forall i :: 0 <= i < |runtimes| ==> runtimes[i].actor in Actors();
      runtimes := runtimes + [rt];
      assert Separate() && OnePlaceEach();
      forall s | s in closing ensures Waits(closing[s]) {
        assert old(Waits(closing[s]));
      }
      assert rt.Loose() == {};
      forall i | old(Owned()) && 0 <= i < |runtimes| ensures runtimes[i].Loose() <= Promised(closing, i) {
        assert i < |old(runtimes)| ==> old(runtimes[i].Loose() <= Promised(closing, i));
      }
    }

    /** Starting again on the same project gives up the proof and stays. */
    method Restart(host: Host, s: Session, k: nat) returns (r: EngineResult<()>)
      requires Valid() && k < |runtimes| && s in runtimes[k].sessions && host.request.Committed?
      modifies runtimes[k], runtimes[k].actor, host`since, host`request
      ensures host.Later()
      ensures Valid() && (old(Owned()) ==> Owned()) && host.request.Committed?
      ensures s in runtimes[k].sessions && runtimes[k].sessions[s] == old(runtimes[k].sessions[s]).Clear()
    {
      r := Renew(runtimes[k], host, s);
      StillOwned(k);
    }

    /** The session gives up its proof and its project. */
    method Depart(host: Host, s: Session, k: nat)
      requires Valid() && k < |runtimes| && s in runtimes[k].sessions && host.request.Committed?
      modifies this`idle, runtimes[k], runtimes[k].actor, host`since, host`request
      ensures host.Later()
      ensures Valid() && runtimes[k].Loose() <= old(runtimes[k].Loose()) && host.request.Committed?
      ensures s in idle && idle[s] == old(runtimes[k].sessions[s]).Clear()
    {
      var book := Resign(runtimes[k], host, s);
      idle := idle[s := book];
      assert AllSound() && OnePlaceEach();
    }

    /** An unattached session joins a project. */
    method Enter(host: Host, s: Session, k: nat) returns (r: EngineResult<()>)
      requires Valid() && k < |runtimes| && s in idle
      modifies this`idle, runtimes[k], runtimes[k].actor, host`since, host`request
      ensures host.Later()
      ensures Valid() && (old(Owned()) ==> Owned()) && runtimes[k].Loose() <= old(runtimes[k].Loose())
      ensures r.Ok? ==> s in runtimes[k].sessions && runtimes[k].sessions[s] == old(idle[s]) && old(idle[s]).proof.None?
      ensures r.Err? ==> s in idle && idle[s] == old(idle[s])
      ensures OnlyInterrupted(old(host.request), host.request)
    {
      hide Owned;
      r := EnterIn(host, s, k);
      if r.Ok? {
        Seat(s);
      }
    }

    /** The session has joined a project and is still listed as unattached; otherwise all is well. */
    ghost predicate Seated(s: Session)
      reads this, runtimes, Actors()
    {
      && AllSound() && AllWait() && s in idle && idle.Keys !! closing.Keys
      && (forall t :: t in idle ==> idle[t].proof.None? && WellFormed(idle[t]))
      && (forall i, j, t :: 0 <= i < |runtimes| && 0 <= j < |runtimes| && t in runtimes[i].sessions && t in runtimes[j].sessions ==> i == j)
      && (forall i, t :: 0 <= i < |runtimes| && t in runtimes[i].sessions ==> t !in closing && (t in idle ==> t == s))
    }

    method Seat(s: Session)
      requires Seated(s)
      modifies this`idle
      ensures Valid() && (old(Owned()) ==> Owned())
    {
      idle := idle - {s};
      assert AllSound() && OnePlaceEach();
    }

    /** It is in the project, and still listed as unattached. */
    method EnterIn(host: Host, s: Session, k: nat) returns (r: EngineResult<()>)
      requires Valid() && k < |runtimes| && s in idle
      modifies runtimes[k], runtimes[k].actor, host`since, host`request
      ensures host.Later() && OnlyInterrupted(old(host.request), host.request)
      ensures (if r.Ok? then Seated(s) else Valid()) && (old(Owned()) ==> Owned()) && runtimes[k].Loose() <= old(runtimes[k].Loose())
      ensures r.Ok? ==> s in runtimes[k].sessions && runtimes[k].sessions[s] == idle[s]
    {
      hide Owned;
      r := Install(host, s, k);
      forall i, t | 0 <= i < |runtimes| && t in runtimes[i].sessions
        ensures t in old(runtimes[i].sessions) || (r.Ok? && i == k && t == s)
      {
      }
    }

    method Install(host: Host, s: Session, k: nat) returns (r: EngineResult<()>)
      requires Valid() && k < |runtimes| && s in idle
      modifies runtimes[k], runtimes[k].actor, host`since, host`request
      ensures host.Later() && OnlyInterrupted(old(host.request), host.request)
      ensures AllSound() && AllWait() && (old(Owned()) ==> Owned()) && runtimes[k].Loose() <= old(runtimes[k].Loose())
      ensures r.Ok? ==> runtimes[k].sessions.Keys == old(runtimes[k].sessions.Keys) + {s} && runtimes[k].sessions[s] == idle[s]
      ensures r.Err? ==> runtimes[k].sessions == old(runtimes[k].sessions)
    {
      r := InstallStartView(runtimes[k], host, s, idle[s]);
      StillWaiting(k);
      StillOwned(k);
    }

    /**
     * `start`: attach a session to a project, giving up whatever proof it had. An interruption that
     * won leaves the session where it was.
     */
    method Begin(host: Host, s: Session, project: nat) returns (r: EngineResult<()>)
      requires Valid()
      modifies this`runtimes, this`idle, runtimes, Actors(), host`since, host`request
      ensures Valid() && OnlyNew() && (old(Owned()) ==> Owned()) && host.Later()
      ensures !host.request.Committed? ==> idle == old(idle)
      ensures r.Ok? ==> project < |runtimes| && s in runtimes[project].sessions && runtimes[project].sessions[s].proof.None?
    {
      var e := host.Observe();
      if host.request.IsCancelled() { return Err(RequestCancelled); }
      if !e.readable || project > |runtimes| { return Err(InvalidConfiguration); }
      r := Attach(host, s, project);
    }

    method Attach(host: Host, s: Session, project: nat) returns (r: EngineResult<()>)
      requires Valid() && project <= |runtimes|
      modifies this`runtimes, this`idle, runtimes, Actors(), host`since, host`request
      ensures Valid() && OnlyNew() && (old(Owned()) ==> Owned()) && host.Later()
      ensures !host.request.Committed? ==> idle == old(idle)
      ensures r.Ok? ==> project < |runtimes| && s in runtimes[project].sessions && runtimes[project].sessions[s].proof.None?
    {
      Ensure(project);
      r := Transfer(host, s, project);
    }

    method Transfer(host: Host, s: Session, project: nat) returns (r: EngineResult<()>)
      requires Valid() && project < |runtimes|
      modifies this`idle, runtimes, Actors(), host`since, host`request
      ensures host.Later()
      ensures Valid() && (old(Owned()) ==> Owned())
      ensures r.Ok? ==> s in runtimes[project].sessions && runtimes[project].sessions[s].proof.None?
      ensures !host.request.Committed? ==>
                idle == old(idle) && forall i :: 0 <= i < |runtimes| ==> runtimes[i].sessions == old(runtimes[i].sessions)
    {
      hide Valid, Owned;
      var at := Find(s);
      if at.None? && s !in idle { return Err(InvalidRequest); }
      r := TransferFrom(host, s, project, at);
    }

    /** From where the session is, if an interruption has not won. */
    method TransferFrom(host: Host, s: Session, project: nat, at: Option<nat>) returns (r: EngineResult<()>)
      requires Valid() && project < |runtimes|
      requires if at.Some? then at.value < |runtimes| && s in runtimes[at.value].sessions else s in idle
      modifies this`idle, runtimes, Actors(), host`since, host`request
      ensures host.Later() && Valid() && (old(Owned()) ==> Owned())
      ensures r.Ok? ==> s in runtimes[project].sessions && runtimes[project].sessions[s].proof.None?
      ensures !host.request.Committed? ==>
                idle == old(idle) && forall i :: 0 <= i < |runtimes| ==> runtimes[i].sessions == old(runtimes[i].sessions)
    {
      hide Owned, AllWait, AllSound;
      var won := host.Commit();
      if !won { return Err(RequestCancelled); }
      r := Reattach(host, s, project, at);
    }

    /** Past the commit point nothing interrupts the move. */
    method Reattach(host: Host, s: Session, project: nat, at: Option<nat>) returns (r: EngineResult<()>)
      requires Valid() && project < |runtimes| && host.request.Committed?
      requires if at.Some? then at.value < |runtimes| && s in runtimes[at.value].sessions else s in idle
      modifies this`idle, runtimes, Actors(), host`since, host`request
      ensures host.Later()
      ensures Valid() && (old(Owned()) ==> Owned()) && host.request.Committed?
      ensures r.Ok? ==> s in runtimes[project].sessions && runtimes[project].sessions[s].proof.None?
    {
      hide Valid, Owned;
      if at.Some? && at.value == project {
        r := Restart(host, s, project);
        return;
      }
      if at.Some? {
        Resettle(host, s, at.value);
      }
      r := Enter(host, s, project);
    }

    method Resettle(host: Host, s: Session, k: nat)
      requires Valid() && k < |runtimes| && s in runtimes[k].sessions && host.request.Committed?
      modifies this`idle, runtimes[k], runtimes[k].actor, host`since, host`request
      ensures host.Later()
      ensures Valid() && (old(Owned()) ==> Owned()) && host.request.Committed?
      ensures s in idle && idle[s] == old(runtimes[k].sessions[s]).Clear()
    {
      Depart(host, s, k);
      StillOwned(k);
    }

    /** What an action does to the sessions that wait to give back. */
    twostate predicate Queues(action: Action)
      reads this, runtimes, Actors()
    {
      match action
      case Disconnect(s) => (s !in closing ==> closing == old(closing)) && (s in closing ==> closing == old(closing)[s := closing[s]])
                            && (s in closing && s !in old(closing) ==> Timely(Release(s)))
      case Release(s) => closing.Keys == old(closing.Keys) - {s}
      case _ => closing == old(closing)
    }

    /** One action, told with what it put at stake. */
    method Act(host: Host, action: Action) returns (ghost chapter: Chapter)
      requires Valid()
      modifies this, runtimes, Actors(), host
      ensures OnlyNew() && Ended(host, chapter.peril) && Queues(action)
      ensures NoSwallowedLoss(host.script) && old(Timely(action)) ==> !Untold()
      ensures Tells(host.script, rocq, action, chapter) && chapter.before == old(At(host)) && chapter.after == At(host)
    {
      hide Valid, Owned, Untold, Tells, Spilling;
      if action.Serve? {
        chapter := ServeOne(host, action);
      } else {
        chapter := MoveOne(host, action);
      }
    }

    /** A request, told with what it put at stake. */
    method ServeOne(host: Host, action: Action) returns (ghost chapter: Chapter)
      requires Valid() && action.Serve?
      modifies runtimes, Actors(), host
      ensures Ended(host, chapter.peril) && (NoSwallowedLoss(host.script) ==> !Untold())
      ensures Tells(host.script, rocq, action, chapter) && chapter.before == old(At(host)) && chapter.after == At(host)
    {
      hide Valid, Owned, Untold, Tells, Does, Explained, Spilling, Advances, SameTrees;
      ghost var before := At(host);
      var reply; ghost var leak, peril, place, acc;
      reply, leak, peril, place, acc := Handle(host, action.session, action.request);
      ghost var after := At(host);
      RequestTells(host.script, rocq, action, before, after, host.request.Committed?, place, reply, leak, peril, acc);
      chapter := Chapter(before, after, host.request.Committed?, peril, Some(reply), acc);
    }

    /** Any other action puts nothing at stake. */
    method MoveOne(host: Host, action: Action) returns (ghost chapter: Chapter)
      requires Valid() && !action.Serve?
      modifies this, runtimes, Actors(), host`since, host`request
      ensures OnlyNew() && Ended(host, chapter.peril) && Queues(action)
      ensures NoSwallowedLoss(host.script) && old(Timely(action)) ==> !Untold()
      ensures Tells(host.script, rocq, action, chapter) && chapter.before == old(At(host)) && chapter.after == At(host)
    {
      ghost var before := At(host);
      Move(host, action);
      chapter := Chapter(before, At(host), host.request.Committed?, Safe, None, Blank(None, 0, host.Now(), map[]));
    }

    /** An action that is not a request to a tool. */
    method Move(host: Host, action: Action)
      requires Valid() && !action.Serve?
      modifies this, runtimes, Actors(), host`since, host`request
      ensures OnlyNew() && Ended(host, Safe) && Queues(action) && host.Later()
      ensures NoSwallowedLoss(host.script) && old(Timely(action)) ==> !Untold()
    {
      hide Owned, AllWait, OnePlaceEach;
      match action {
        case Connect(s) => Join(s);
        case Start(s, project) => var _ := Begin(host, s, project);
        case Disconnect(s) => Leave(s);
        case Release(s) => Settle(host, s);
        case Serve(_, _) =>
      }
    }

    /** One action, under a request of its own. */
    method Step(host: Host, action: Action) returns (told: bool, ghost chapter: Chapter)
      requires Valid()
      modifies this, runtimes, Actors(), host
      ensures OnlyNew() && (if told then Valid() else Untold()) && Queues(action)
      ensures NoSwallowedLoss(host.script) && old(Timely(action)) ==> told
      ensures old(Owned()) && told && !Spilling(host.script, chapter.peril) ==> Owned()
      ensures Tells(host.script, rocq, action, chapter) && chapter.before == old(At(host)) && chapter.after == At(host)
    {
      hide Valid, Owned, Untold, Tells, Spilling;
      host.Admit();
      assert At(host) == old(At(host)) && Owned() == old(Owned()) && Timely(action) == old(Timely(action));
      chapter := Act(host, action);
      told := !Untold();
    }

    /**
     * Safety over whole runs. Any sequence of actions by any number of sessions over any number of
     * projects, whatever the prover, the builds, the peers and other programs do meanwhile, leaves
     * every project coherent after every action, up to the first moment handles lose their meaning
     * where nobody can be told: a swallowed loss, or a late release. If there is no swallowed loss and
     * every closed session gives back at once, there is no such moment. And as long as no request
     * spills, as none can in a gentle world, every exported state of every project has an owner.
     */
    method Run(host: Host, actions: seq<Action>) returns (served: nat, ghost chapters: seq<Chapter>)
      requires Valid()
      modifies this, runtimes, Actors(), host
      ensures served <= |actions| && |chapters| == if served == |actions| then served else served + 1
      ensures if served == |actions| then Valid() else Untold()
      ensures Chronicle(host.script, rocq, actions, chapters, old(At(host)), At(host))
      ensures NoSwallowedLoss(host.script) && Prompt(actions) && old(closing) == map[] ==> served == |actions|
      ensures served == |actions| && old(Owned()) && SpillFree(host.script, chapters) ==> Owned()
      ensures served == |actions| && old(Owned()) && Gentle(host.script) ==> Owned()
    {
      chapters, served := [], 0;
      while served < |actions|
        invariant served <= |actions| && |chapters| == served && Valid() && OnlyNew()
        invariant Chronicle(host.script, rocq, actions, chapters, old(At(host)), At(host))
        invariant old(Owned()) && SpillFree(host.script, chapters) ==> Owned()
        invariant Prompt(actions) && old(closing) == map[] ==> OnlyLast(actions, served)
      {
        ghost var known, provers := runtimes, Actors();
        var told;
        told, chapters := Turn(host, actions, served, chapters, old(At(host)));
        if !told { return; }
        forall i | 0 <= i < |runtimes|
          ensures (runtimes[i] in known || fresh(runtimes[i])) && (runtimes[i].actor in provers || fresh(runtimes[i].actor))
        {
        }
        served := served + 1;
      }
      if Gentle(host.script) {
        GentleRun(host.script, rocq, actions, chapters, old(At(host)), At(host));
      }
    }

    /** One more action of a run, written down. */
    method Turn(host: Host, actions: seq<Action>, n: nat, ghost chapters: seq<Chapter>, ghost from: Standing)
        returns (told: bool, ghost longer: seq<Chapter>)
      requires Valid() && |chapters| == n < |actions|
      requires Chronicle(host.script, rocq, actions, chapters, from, At(host))
      modifies this, runtimes, Actors(), host
      ensures OnlyNew() && (if told then Valid() else Untold()) && |longer| == n + 1
      ensures Chronicle(host.script, rocq, actions, longer, from, At(host))
      ensures SpillFree(host.script, longer) ==> SpillFree(host.script, chapters) && (told && old(Owned()) ==> Owned())
      ensures Prompt(actions) && old(OnlyLast(actions, n)) ==>
                (NoSwallowedLoss(host.script) ==> told) && (told ==> OnlyLast(actions, n + 1))
    {
      hide Valid, Owned, Untold, Tells, Spilling;
      ghost var chapter;
      told, chapter := StepInTurn(host, actions, n);
      SpillFreeAppend(host.script, chapters, chapter);
      ChronicleGrows(host.script, rocq, actions, chapters, from, chapter);
      longer := chapters + [chapter];
    }

    /** `Step`, for a run in which every closed session gives back at once. */
    method StepInTurn(host: Host, actions: seq<Action>, n: nat) returns (told: bool, ghost chapter: Chapter)
      requires Valid() && n < |actions|
      modifies this, runtimes, Actors(), host
      ensures OnlyNew() && (if told then Valid() else Untold())
      ensures old(Owned()) && told && !Spilling(host.script, chapter.peril) ==> Owned()
      ensures Tells(host.script, rocq, actions[n], chapter) && chapter.before == old(At(host)) && chapter.after == At(host)
      ensures Prompt(actions) && old(OnlyLast(actions, n)) ==>
                (NoSwallowedLoss(host.script) ==> told) && (told ==> OnlyLast(actions, n + 1))
    {
      hide Valid, Owned, Untold, Tells, Spilling;
      ghost var waiting := closing.Keys;
      told, chapter := Step(host, actions[n]);
      if Prompt(actions) && old(OnlyLast(actions, n)) {
        OneAtATime(actions, n, waiting, closing.Keys);
      }
    }

    /** Nobody waits to give back but the session that closed just now, and its release would be timely. */
    ghost predicate OnlyLast(actions: seq<Action>, n: nat)
      reads this, runtimes, Actors()
      requires n <= |actions|
    {
      if 0 < n && actions[n - 1].Disconnect? then
        closing.Keys <= {actions[n - 1].session} && Timely(Release(actions[n - 1].session))
      else
        closing == map[]
    }

    /**
     * What that means for one checkpoint of one session: its handle is exported by its own
     * project's live process, no other checkpoint has it, and it denotes exactly what running the
     * accepted fragments from the proof's root gives there.
     */
    lemma EveryHandleIsRight(k: nat, s: Session, c: Id)
      requires Valid() && k < |runtimes| && HandleAt(runtimes[k].sessions, s, c).Some?
      ensures var rt, h := runtimes[k], HandleAt(runtimes[k].sessions, s, c).value;
              && rt.actor.process.Some? && h in rt.actor.process.value.exported
              && (forall t, d :: HandleAt(rt.sessions, t, d) == Some(h) ==> t == s && d == c)
              && Tree(rt.sessions[s].proof.value)
              && rt.actor.rocq.Replay(rt.actor.process.value.env, rt.sessions[s].proof.value.target, Fragments(rt.sessions[s].proof.value, c))
                 == Some(rt.actor.process.value.exported[h])
    {
      var rt := runtimes[k];
      assert rt.Sound();
      CacheRefinesReplay(rt.actor.rocq, rt.sessions, rt.actor.process, s, c);
    }
  }
}
