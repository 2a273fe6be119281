/** The sole owner of the prover process of one project. */
module Pet {
  import opened Outcomes
  import opened Sources
  import opened Requests
  import opened Checkpoints
  import opened Prover
  import opened Coherence
  import opened Hosts

  type PetResult<T> = Result<T, PetError>

  datatype Traced = Success(state: Handle) | Failure(before: Handle)

  function Elements(states: seq<Handle>): set<Handle> {
    set h | h in states
  }

  /** How a request to a live process ends, given the event it meets and the request's state by then. */
  function LiveAnswer(e: Event, request: RequestState, deadline: bool, refusable: bool): PetResult<Event> {
    if request.IsCancelled() then Err(PetError.Cancelled)
    else match e.fault
      case Lost => Err(ProcessLost)
      case DeadlineHit => if deadline then Err(PetError.TimedOut) else Ok(e)
      case Refused(kind) => if refusable then Err(Remote(kind)) else Ok(e)
      case Answered => Ok(e)
  }

  /** The goals of a new state are refused, and then the release of that state loses the process. */
  predicate Swallows(script: nat -> Event, t: nat, request: RequestState) {
    var first := Deliver(request, script(t).signal);
    var goals := LiveAnswer(script(t), first, false, true);
    && goals.Err? && !goals.error.InvalidatesProcess()
    && LiveAnswer(script(t + 1), Deliver(first, script(t + 1).signal), false, false).Err?
  }

  /** Nothing happens for `n` events; then a loss is swallowed. */
  ghost predicate Ambush(script: nat -> Event, t: nat, n: nat, request: RequestState) {
    Hush(script, t, t + n) && !request.IsCancelled() && Swallows(script, t + n, request)
  }

  /** The process that the event starts, with its workspace. */
  function Started(e: Event): Option<Process> {
    Some(Process(e.env, true, map[], e.firstId))
  }

  /** The process after it has handed out its next identifier. */
  function Handing(p: Option<Process>, s: RocqState): Option<Process> {
    match p
    case None => None
    case Some(q) => Some(q.(exported := q.exported[q.nextId := s], nextId := q.nextId + 1))
  }

  /** No loss goes unreported here. */
  predicate Orderly(script: nat -> Event, t: nat) {
    !Swallows(script, t, Active) && !Swallows(script, t, Committed) && !script(t).lostOnDrop
  }

  /** No refused request is followed by the loss of the next one, and no closing session loses the prover. */
  ghost predicate NoSwallowedLoss(script: nat -> Event) {
    forall t :: Orderly(script, t)
  }

  lemma SwallowedIsDisorderly(script: nat -> Event, t: nat, request: RequestState)
    requires Swallows(script, t, request)
    ensures !NoSwallowedLoss(script)
  {
    assert !Orderly(script, t);
  }

  class PetActor {
    const rocq: Rocq
    var process: Option<Process>
    /** Counts the points at which exported identifiers stopped meaning anything. */
    var epoch: nat
    /**
     * The model's own note that handles may have lost their meaning where nobody could be told: a process
     * loss was swallowed, or a closed session gave back identifiers that by then were somebody else's.
     */
    var silentLoss: bool

    ghost predicate Valid()
      reads this
    {
      Fresh(process)
    }

    ghost predicate IsUp()
      reads this
    {
      process.Some? && process.value.ready
    }

    /**
     * No call below the adapter commits the request or forgets a swallowed loss; and within one
     * epoch everything exported stays exported, except what the call is to release.
     */
    twostate predicate Steady(host: Host, new gone: set<Handle> := {})
      reads this, host
    {
      && Valid()
      && OnlyInterrupted(old(host.request), host.request) && host.Later()
      && (old(silentLoss) ==> silentLoss)
      && (silentLoss && NoSwallowedLoss(host.script) ==> old(silentLoss))
      && old(epoch) <= epoch
      && (epoch == old(epoch) ==> Table(old(process)).Keys - gone <= Table(process).Keys)
    }

    /**
     * How a call accounts for the process: an error that ends the epoch leaves no process; any
     * other error leaves what was exported untouched, unless a loss was swallowed on the way.
     */
    twostate predicate Reported<T>(host: Host, new r: PetResult<T>)
      reads this, host
    {
      && (r.Err? && r.error.InvalidatesProcess() ==> process == None)
      && (r.Err? && !r.error.InvalidatesProcess() && !silentLoss ==> Same(old(process), process))
      && (r.Err? && r.error.Cancelled? ==> host.request.IsCancelled())
    }

    constructor (rocq: Rocq)
      ensures Valid() && this.rocq == rocq
      ensures process == None && !silentLoss && epoch == 0
    {
      this.rocq := rocq;
      process, epoch, silentLoss := None, 0, false;
    }

    /** Drop the child: every identifier it exported is gone. */
    method Restart()
      modifies this`process, this`epoch
      ensures process == None && epoch == old(epoch) + 1
    {
      process := None;
      epoch := epoch + 1;
    }

    /**
     * One request to the running process. A loss, a deadline or a cancellation ends the epoch and
     * is reported as such; any other answer leaves the process as it was.
     */
    method CallLive(host: Host, deadline: bool, refusable: bool) returns (r: PetResult<Event>)
      requires Valid()
      modifies this`process, this`epoch, host`since, host`request
      ensures Steady(host)
      ensures r.Ok? ==> old(process).Some? && process == old(process) && epoch == old(epoch)
      ensures r.Err? && r.error.InvalidatesProcess() ==> process == None
      ensures r.Err? && !r.error.InvalidatesProcess() ==>
                refusable && old(process).Some? && process == old(process) && epoch == old(epoch)
      ensures r == Err(PetError.TimedOut) ==> deadline && old(epoch) < epoch
      ensures r == Err(PetError.Cancelled) ==> host.request.IsCancelled()
      ensures old(process).Some? ==>
                && host.Clock() == old(host.Clock()) + 1
                && host.request == Deliver(old(host.request), host.script(old(host.Clock())).signal)
                && host.Disk() == Edited(old(host.Disk()), host.script(old(host.Clock())).edit)
                && r == LiveAnswer(host.script(old(host.Clock())), host.request, deadline, refusable)
    {
      if process.None? { return Err(ProcessLost); }
      var e := host.Observe();
      if host.request.IsCancelled() {
        Restart();
        return Err(PetError.Cancelled);
      }
      match e.fault {
        case Lost => Restart(); return Err(ProcessLost);
        case DeadlineHit => if deadline { Restart(); return Err(PetError.TimedOut); }
        case Refused(kind) => if refusable { return Err(Remote(kind)); }
        case Answered =>
      }
      r := Ok(e);
    }

    /** Start the child and hand it the workspace when that has not been done yet. */
    method EnsureProcess(host: Host) returns (r: PetResult<()>)
      requires Valid()
      modifies this`process, this`epoch, host`since, host`request
      ensures Steady(host)
      ensures r.Ok? ==> process.Some? && process.value.ready && Same(old(process), process) && epoch == old(epoch)
      ensures Reported(host, r)
      ensures r.Err? ==> Table(process) == map[]
      ensures r != Err(PetError.TimedOut)
      ensures old(process).Some? && old(process).value.ready ==> r.Ok? && process == old(process) && host.Waited(0)
      ensures old(process).None? && host.Quietly(2) ==>
                r.Ok? && process == Started(host.script(old(host.Clock()))) && host.Waited(2)
    {
      if process.None? {
        var e := host.Observe();
        if host.request.IsCancelled() { return Err(PetError.Cancelled); }
        if e.fault.Lost? { return Err(ProcessLost); }
        if e.fault.Refused? { return Err(Environment); }
        process := Some(Process(e.env, false, map[], e.firstId));
      }
      if !process.value.ready {
        var admitted := CallLive(host, false, true);
        if admitted.Err? { return Err(admitted.error); }
        process := Some(process.value.(ready := true));
      }
      r := Ok(());
    }

    method CallInWorkspace(host: Host) returns (r: PetResult<Event>)
      requires Valid()
      modifies this`process, this`epoch, host`since, host`request
      ensures Steady(host)
      ensures r.Ok? ==> process.Some? && process.value.ready && Same(old(process), process) && epoch == old(epoch)
      ensures Reported(host, r)
      ensures r.Ok? ==> old(host.Clock()) < host.Clock()
      ensures r != Err(PetError.TimedOut)
      ensures old(process).Some? && old(process).value.ready && Peaceful(host.script(old(host.Clock()))) && !old(host.request).IsCancelled() ==>
                r.Ok? && process == old(process) && host.Waited(1)
      ensures old(process).None? && host.Quietly(3) ==>
                r.Ok? && process == Started(host.script(old(host.Clock()))) && host.Waited(3)
      ensures r.Ok? && old(process).Some? && old(process).value.ready ==> process == old(process)
    {
      var ready := EnsureProcess(host);
      if ready.Err? { return Err(ready.error); }
      r := CallLive(host, false, true);
    }

    /** The prover hands out an identifier it does not currently use. */
    method NewId(s: RocqState) returns (h: Handle)
      requires Valid() && process.Some? && process.value.ready
      modifies this`process
      ensures Valid() && process.Some?
      ensures h == old(process).value.nextId && h !in old(process).value.exported
      ensures process.value == old(process).value.(exported := old(process).value.exported[h := s], nextId := h + 1)
    {
      h := process.value.nextId;
      process := Some(process.value.(exported := process.value.exported[h := s], nextId := h + 1));
    }

    /** Remove exactly the given identifiers. A live prover accounts for every release. */
    method Release(host: Host, states: seq<Handle>) returns (r: PetResult<()>)
      requires Valid()
      modifies this`process, this`epoch, host`since, host`request
      ensures Steady(host, Elements(states))
      ensures states == [] ==> r.Ok? && process == old(process) && epoch == old(epoch)
      ensures r.Ok? ==> epoch == old(epoch) && (old(process).None? ==> states == [] && process == None)
      ensures r.Ok? && old(process).Some? ==>
                process == Some(old(process).value.(exported := old(process).value.exported - Elements(states)))
      ensures r.Err? ==> r.error.InvalidatesProcess() && process == None
      ensures r != Err(PetError.TimedOut)
      ensures r == Err(PetError.Cancelled) ==> host.request.IsCancelled()
      ensures old(process).Some? && states != [] ==>
                && (r.Ok? <==> LiveAnswer(host.script(old(host.Clock())), Deliver(old(host.request), host.script(old(host.Clock())).signal), false, false).Ok?)
                && host.Clock() == old(host.Clock()) + 1
                && host.request == Deliver(old(host.request), host.script(old(host.Clock())).signal)
                && host.Disk() == Edited(old(host.Disk()), host.script(old(host.Clock())).edit)
    {
      if states == [] {
        if process.Some? {
          assert process.value.exported - Elements(states) == process.value.exported;
        }
        return Ok(());
      }
      var call := CallLive(host, false, false);
      if call.Err? { return Err(call.error); }
      process := Some(process.value.(exported := process.value.exported - Elements(states)));
      r := Ok(());
    }

    /** A closing session gives back what it held. It has no caller left to tell about a loss. */
    method ReleaseOnDrop(host: Host, states: seq<Handle>)
      requires Valid()
      modifies this`process, this`epoch, this`silentLoss, host`since, host`request
      ensures Steady(host, Elements(states))
      ensures old(process).None? ==> process == None && silentLoss == old(silentLoss)
      ensures old(process).Some? && process.None? ==> silentLoss && host.script(old(host.Clock())).lostOnDrop
      ensures old(process).Some? && process.Some? ==>
                && silentLoss == old(silentLoss)
                && process == Some(old(process).value.(exported := old(process).value.exported - Elements(states)))
    {
      if process.None? { return; }
      if states == [] {
        assert process.value.exported - Elements(states) == process.value.exported;
        return;
      }
      assert NoSwallowedLoss(host.script) ==> Orderly(host.script, host.Clock());
      var e := host.Observe();
      if e.lostOnDrop {
        Restart();
        silentLoss := true;
      } else {
        process := Some(process.value.(exported := process.value.exported - Elements(states)));
      }
    }

    /** Read the goals of a state just exported; if they cannot be had, the state is not kept. */
    method Materialize(host: Host, h: Handle) returns (r: PetResult<()>)
      requires Valid() && process.Some? && h in process.value.exported
      modifies this`process, this`epoch, this`silentLoss, host`since, host`request
      ensures Steady(host, {h})
      ensures r.Ok? ==> process == old(process) && epoch == old(epoch) && silentLoss == old(silentLoss)
      ensures r.Err? && r.error.InvalidatesProcess() ==> process == None && silentLoss == old(silentLoss)
      ensures r.Err? && !r.error.InvalidatesProcess() && !silentLoss ==>
                process == Some(old(process).value.(exported := old(process).value.exported - {h}))
      ensures r != Err(PetError.TimedOut)
      ensures r == Err(PetError.Cancelled) ==> host.request.IsCancelled()
      ensures !old(silentLoss) ==> (silentLoss <==> Swallows(host.script, old(host.Clock()), old(host.request)))
      ensures silentLoss && !old(silentLoss) ==> process == None && r.Err? && !r.error.InvalidatesProcess()
      ensures Peaceful(host.script(old(host.Clock()))) && !old(host.request).IsCancelled() ==> r.Ok? && host.Waited(1)
    {
      ghost var t, request := host.Clock(), host.request;
      var goals := CallLive(host, false, true);
      if goals.Ok? { return Ok(()); }
      assert Elements([h]) == {h};
      var live := process.Some?;
      var released := Release(host, [h]);
      assert live && released.Err? <==> Swallows(host.script, t, request);
      if live && released.Err? {
        SwallowedIsDisorderly(host.script, t, request);
        silentLoss := true;
      }
      r := Err(goals.error);
    }

    /** Keep a new state: hand it an identifier and read its goals. */
    method Keep(host: Host, s: RocqState) returns (r: PetResult<Handle>)
      requires Valid() && process.Some? && process.value.ready
      modifies this`process, this`epoch, this`silentLoss, host`since, host`request
      ensures Steady(host)
      ensures r.Ok? ==> process.Some? && process.value.ready
      ensures r.Ok? ==> Grown(old(process), process, map[r.value := s]) && epoch == old(epoch) && silentLoss == old(silentLoss)
      ensures r.Ok? ==> r.value == old(process).value.nextId && process == Handing(old(process), s)
      ensures Reported(host, r)
      ensures r != Err(PetError.TimedOut)
      ensures !old(silentLoss) ==> (silentLoss <==> Swallows(host.script, old(host.Clock()), old(host.request)))
      ensures silentLoss && !old(silentLoss) ==> process == None && r.Err? && !r.error.InvalidatesProcess()
      ensures Peaceful(host.script(old(host.Clock()))) && !old(host.request).IsCancelled() ==> r.Ok? && host.Waited(1)
    {
      ghost var before := process.value.exported;
      var h := NewId(s);
      assert before[h := s] - {h} == before;
      assert before[h := s] == before + map[h := s];
      var goals := Materialize(host, h);
      if goals.Err? { return Err(goals.error); }
      r := Ok(h);
    }

    /** The state at one byte anchor of a document, as its file reads when the state is asked for. */
    method StateAt(host: Host, file: File, offset: nat) returns (r: PetResult<Handle>)
      requires Valid()
      modifies this`process, this`epoch, this`silentLoss, host`since, host`request
      ensures Steady(host)
      ensures r.Ok? ==> process.Some? && epoch == old(epoch) && silentLoss == old(silentLoss)
                        && file in old(host.Disk())
                        && Grown(old(process), process, map[r.value := rocq.at(process.value.env, file, old(host.Disk())[file].text, offset)])
      ensures r.Ok? && old(IsUp()) ==>
                r.value == old(process).value.nextId
                && process == Handing(old(process), rocq.at(old(process).value.env, file, old(host.Disk())[file].text, offset))
      ensures old(IsUp()) && file in old(host.Disk()) && host.Quietly(2) ==> r.Ok? && host.Waited(2)
      ensures Reported(host, r)
      ensures r != Err(PetError.TimedOut)
      ensures silentLoss && !old(silentLoss) ==> process == None && r.Err? && !r.error.InvalidatesProcess()
      ensures old(IsUp()) && !old(silentLoss) && file in old(host.Disk()) && Ambush(host.script, old(host.Clock()), 1, old(host.request)) ==>
                silentLoss
    {
      if file !in host.Disk() { return Err(Environment); }
      r := StateIn(host, file, host.Disk()[file].text, offset);
    }

    /** The state at one byte anchor of a document that reads like this. */
    method StateIn(host: Host, file: File, text: Text, offset: nat) returns (r: PetResult<Handle>)
      requires Valid()
      modifies this`process, this`epoch, this`silentLoss, host`since, host`request
      ensures Steady(host)
      ensures r.Ok? ==> process.Some? && epoch == old(epoch) && silentLoss == old(silentLoss)
                        && Grown(old(process), process, map[r.value := rocq.at(process.value.env, file, text, offset)])
      ensures r.Ok? && old(IsUp()) ==> r.value == old(process).value.nextId
                                       && process == Handing(old(process), rocq.at(old(process).value.env, file, text, offset))
      ensures old(IsUp()) && host.Quietly(2) ==> r.Ok? && host.Waited(2)
      ensures Reported(host, r)
      ensures r != Err(PetError.TimedOut)
      ensures silentLoss && !old(silentLoss) ==> process == None && r.Err? && !r.error.InvalidatesProcess()
      ensures old(IsUp()) && !old(silentLoss) && Ambush(host.script, old(host.Clock()), 1, old(host.request)) ==> silentLoss
    {
      var call := CallInWorkspace(host);
      if call.Err? { return Err(call.error); }
      r := Keep(host, rocq.at(process.value.env, file, text, offset));
    }

    /** Run one whole fragment; a rejection exports nothing. */
    method Run(host: Host, state: Handle, fragment: Text, deadline: bool, ghost quiet: bool := false) returns (r: PetResult<Handle>)
      requires Valid()
      requires quiet ==> host.Still(2) && state in Table(process) && rocq.step(Table(process)[state], fragment).Accepted?
      modifies this`process, this`epoch, this`silentLoss, host`since, host`request
      ensures Steady(host)
      ensures r.Ok? ==> silentLoss == old(silentLoss) && epoch == old(epoch) && state in Table(old(process))
                        && rocq.step(Table(old(process))[state], fragment).Accepted?
                        && Grown(old(process), process, map[r.value := rocq.step(Table(old(process))[state], fragment).state])
      ensures r.Ok? ==> r.value == old(process).value.nextId
                        && process == Handing(old(process), rocq.step(Table(old(process))[state], fragment).state)
      ensures Reported(host, r)
      ensures r == Err(PetError.TimedOut) ==> deadline
      ensures quiet ==> r.Ok? && process.value.ready && host.Waited(2)
    {
      var call := CallLive(host, deadline, true);
      if call.Err? { return Err(call.error); }
      if state !in process.value.exported { return Err(Remote(System)); }
      match rocq.step(process.value.exported[state], fragment)
      case Rejected(_) => r := Err(Remote(Coq));
      case Accepted(s) => r := Keep(host, s);
    }

    /** Run a fragment sentence by sentence; a rejection exports the state just before the bad one. */
    method RunTraced(host: Host, state: Handle, fragment: Text, deadline: bool, ghost quiet: bool := false) returns (r: PetResult<Traced>)
      requires Valid()
      requires quiet ==> host.Still(2) && state in Table(process)
      modifies this`process, this`epoch, this`silentLoss, host`since, host`request
      ensures Steady(host)
      ensures r.Ok? ==> silentLoss == old(silentLoss) && epoch == old(epoch) && state in Table(old(process))
      ensures r.Ok? && r.value.Success? ==>
                && rocq.step(Table(old(process))[state], fragment).Accepted?
                && Grown(old(process), process, map[r.value.state := rocq.step(Table(old(process))[state], fragment).state])
      ensures r.Ok? && r.value.Failure? ==>
                && rocq.step(Table(old(process))[state], fragment).Rejected?
                && Grown(old(process), process, map[r.value.before := rocq.step(Table(old(process))[state], fragment).before])
      ensures Reported(host, r)
      ensures r == Err(PetError.TimedOut) ==> deadline && old(epoch) < epoch
      ensures quiet ==> r.Ok? && process.value.ready && host.Waited(2)
    {
      var call := CallLive(host, deadline, true);
      if call.Err? { return Err(call.error); }
      if state !in process.value.exported { return Err(Remote(System)); }
      match rocq.step(process.value.exported[state], fragment)
      case Accepted(s) =>
        var kept := Keep(host, s);
        if kept.Err? { return Err(kept.error); }
        r := Ok(Success(kept.value));
      case Rejected(s) =>
        var kept := Keep(host, s);
        if kept.Err? { return Err(kept.error); }
        r := Ok(Failure(kept.value));
    }

    /** What a declaration rests on, asked in an exact state. */
    method Assumptions(host: Host, state: Handle, name: seq<string>) returns (r: PetResult<Report>)
      requires Valid() && state in Table(process)
      modifies this`process, this`epoch, host`since, host`request
      ensures Steady(host)
      ensures r.Ok? ==> process == old(process) && epoch == old(epoch) && r.value == rocq.assumptions(Table(old(process))[state], name)
      ensures Reported(host, r)
      ensures r != Err(PetError.TimedOut)
      ensures Peaceful(host.script(old(host.Clock()))) && !old(host.request).IsCancelled() ==> r.Ok? && host.Waited(1)
    {
      var call := CallLive(host, false, true);
      if call.Err? { return Err(call.error); }
      r := Ok(rocq.assumptions(process.value.exported[state], name));
    }

    /** Run a query in an exact state; the temporary state its run exports is released first. */
    method Ask(host: Host, state: Handle, command: Text) returns (r: PetResult<()>)
      requires Valid()
      modifies this`process, this`epoch, this`silentLoss, host`since, host`request
      ensures Steady(host)
      ensures silentLoss == old(silentLoss)
      ensures r.Ok? ==> Same(old(process), process) && state in Table(old(process))
                        && rocq.step(Table(old(process))[state], command).Accepted?
      ensures Reported(host, r)
      ensures r != Err(PetError.TimedOut)
    {
      var call := CallLive(host, false, true);
      if call.Err? { return Err(call.error); }
      if state !in process.value.exported { return Err(Remote(System)); }
      match rocq.step(process.value.exported[state], command)
      case Rejected(_) => return Err(Remote(Coq));
      case Accepted(s) =>
        ghost var before := process.value.exported;
        var h := NewId(s);
        assert before[h := s] - {h} == before;
        assert Elements([h]) == {h};
        r := Release(host, [h]);
    }

    /** Discard every identifier and reload the project; a failed reload replaces the process. */
    method Refresh(host: Host) returns (r: PetResult<()>)
      requires Valid()
      modifies this`process, this`epoch, host`since, host`request
      ensures Steady(host)
      ensures Table(process) == map[]
      ensures r.Ok? ==> process.Some? && epoch > old(epoch)
      ensures r == Err(PetError.Cancelled) ==> host.request.IsCancelled()
      ensures old(IsUp()) && Peaceful(host.script(old(host.Clock()))) && !old(host.request).IsCancelled() ==>
                r.Ok? && process == Started(host.script(old(host.Clock()))) && host.Waited(1)
    {
      var ready := EnsureProcess(host);
      if ready.Err? { return Err(ready.error); }
      var call := CallLive(host, false, true);
      if call.Ok? {
        process := Some(Process(call.value.env, true, map[], call.value.firstId));
        epoch := epoch + 1;
        return Ok(());
      }
      Restart();
      r := EnsureProcess(host);
    }
  }
}
