# A verified model of the Rocq proof server

The server keeps, for every connection, a tree of accepted proof fragments, and caches on each tree
node an integer handle into one external prover process (PET) shared by all connections of a
project. That process can die, be killed by a deadline or a cancellation, or be restarted on
purpose when the project is rebuilt; handles then lose their meaning and their integers may come
back meaning something else. A finished proof is published into its source file by compare-and-swap,
built, refreshed, audited and, if anything fails, rolled back, while editors write to the same file.

The model is written in Dafny 4.11. `dafny verify dfyconfig.toml` checks all of it.

## How it is built

* **The outside world is a script.** `Hosts.Host` is driven by a fixed function from time to events:
  what the prover answers, when it is lost, what a build does, whether a write lands, who cancels,
  which file another program replaces. A theorem about every script is a theorem about every
  behaviour of the world. Each look at the world moves the clock, so the world may act between any
  two steps; a digest check and the write that follows it are one step, because the program itself
  documents that remaining race. What the files hold at any moment is a function of the script and of the
  server's own last write (`Hosts.Drift`), so a contract can name a moment inside a call and fix the disk there.
* **Rocq is a deterministic function** (`Prover.Rocq`) of the environment one epoch has loaded and of the
  bytes it is asked about. A new process or a refreshed one may load a different environment and may
  reuse identifiers. Which declarations a document has is the prover's report; which of them may be
  replaced alone is worked out from that report here, as in the program (`Declarations`). Asking for the
  state at a position reads the file in the same step as the look that precedes it; "Left out" lists this
  and the other simplifications.
* **`Coherence`** states the invariant on values: every handle in every book is exported now, owned
  by one checkpoint, sits on a live parent, and is one accepted step from it. One small lemma per
  kind of change (export, release, adopt, clear, invalidate) keeps it.
* **`Pet` and `Engine`** are the process owner and the stateless sequencing above it, as methods over a
  mutable actor. Their contracts say what was exported, what was released, and that an error tells
  truly whether the epoch is over.
* **`Runtime`, `Replay`, `Attempts`, `Publishing`, `Checking`, `Tools`, `Answers`, `Dispatching`, `Sessions`, `Server`**
  are the adapter, layer by layer up to a server with any number of projects and connections, each tool call
  one step under its project's operation barrier. `Answers` holds the requests, the replies, and what a reply
  means (`Answers.Does`). Closing a connection is two: its session leaves the registry,
  and gives back what it held when its project is free. **`Histories`** says what a whole run did.
* **`Witnesses`** starts from a new project and runs its tools in worlds where a promise fails. Some methods
  take a ghost flag (`quiet`, `ripe`, `smooth`, `asleep`, `ambushed`): a caller that can show what the world does
  next learns in return exactly what happens. It adds no precondition for anybody else.
* **`Splicing` and `Writeback`** are the publication transaction; **`Requests`** the race between
  cancellation, deadline and commit; **`Utf8`, `Paging`, `Framing`, `GoalDiff`, `Identifier`, `Layout`** the
  algorithmic pieces with exact specifications.

A session owns its book outright, so books are values in the runtime's session map;
`Checkpoints.CheckpointBook` is the same book as a mutable object, each method proved equal to the
function on values.

## Main results

1. **Every run.** `Server.ServerRuntime.Run`: after every action of any sequence of connections, starts,
   requests, disconnections and releases over any number of projects, every project is coherent, up to the
   first moment at which handles lose their meaning where the program cannot tell anybody; there the run
   stops. There are two such moments. One is a loss that an error does not report, or that a release
   finds; a world without it (`Pet.NoSwallowedLoss`) can be recognised on the script alone. The other is a late
   release, after a boundary the closed session no longer heard of; `Sessions.GiveBack` says exactly when one
   does harm. In a world without the first, a run in which every closed session gives back at once never stops.
   `Server.ServerRuntime.EveryHandleIsRight` spells out what coherence means for one checkpoint;
   `Witnesses.SecondFaultBreaksCoherence` and `Witnesses.LateReleaseRobsAnother` show the two moments.
2. **Cache refines replay.** `Coherence.CacheRefinesReplay`: a cached and a rebuilt checkpoint cannot
   differ. `Coherence.MissingIsASuffix` and `Replay.ReplayCheckpoint`: replay re-runs exactly the missing
   suffix, all or nothing, and displaces no handle; it succeeds only if every node on the way runs, may be held
   and completes as it did (`Replay.Repeatable`), and while the world keeps still it then does succeed.
3. **Ownership.** `Dispatching.Dispatch`: no request leaves an exported identifier without an owner, except
   through three exits, each with its exact condition on the world and the exact set left behind (see
   below). The condition speaks of a moment of that very request, of its own session's proof and of the disk
   the script gives at that moment (`Answers.Explained`), so in a world where nobody else writes and all
   reads and writes succeed no request loses anything (`Histories.GentleRequest`).
   `Server.ServerRuntime.Run`: in a run in which none of the exits is taken, and in every run of such a world,
   every exported identifier of every project has an owner at the end, or a closed session is about to
   give it back.
4. **An answer means what was done.** `Dispatching.Dispatch`, up to `Server.ServerRuntime.Run`: one relation per
   tool (`Answers.Does`) over the books, the record and the time before and after a request, the request and its
   reply. `abandon` answers only when the proof named is the session's and is gone; `rewind` when the selection
   is at the checkpoint it names, for a count of steps the one counted back; `check` when the books moved by
   exactly the alternative it names; `try`, when every report is Rocq's own from the selected checkpoint; `prove`
   and `declare` when the root of that declaration is there, or the whole certificate is; a query in the state it
   had to be asked in; `list` after the builds the world planned. An error changed no graph and no file
   (`Dispatching.Answered`). A run that asks for no `check` writes no file (`Histories.OnlyChecksWrite`).
   While the world keeps still `declare`, `check` and `prove` do succeed, publication and validation included.
5. **Cancel against commit.** `Dispatching.Dispatch`: a request that did not commit changed no identifier
   counter, parent link, input, selection or file; one that did never answers "cancelled", not even
   inside a selected answer whose publication failed. Whatever it did, no checkpoint identifier comes
   back (`Coherence.Aged`), over whole runs of requests neither (`Histories.NoIdentifierComesBack`).
6. **Publication.** `Writeback.Publish` and `Checking.Check`: a publication starts only when the generated
   terminator was accepted after the selected fragment, and then writes, in the target's range and nowhere else,
   the header with its period, `Proof.` unless a definition, every accepted fragment of the path in order and
   without its surrounding spaces, and that terminator, one to a line (`Splicing.Says`; `Splicing.SaysOnce`:
   nothing else fits that description). What is overwritten was the original or the
   server's own replacement; a completed publication has behind it, in this order and in one new
   epoch, a successful build, a refresh, the prover's report that this very declaration is finished and of its
   kind in the bytes on disk at a moment of this call, and a clean audit of it, with three checks
   that the replacement was still there (`Writeback.Sealed`). A failing one is rolled back at one moment, over what its first
   write and other programs had left by then, which fixes the disk at its end (`Writeback.RolledBack`);
   `Writeback.ReplacementStays` and `Writeback.ForeignBytesGo` read off exactly when the replacement stays and
   when another program's bytes go. A published target is a record of the prover's own report, or an empty
   range, and every other record of that report keeps its bytes
   (`Splicing.PublicationKeepsOtherDeclarations`, an `ensures` of `Checking.Check`).
7. **Same base.** `Checking.Check` and `Attempts.TryFragments`: every alternative ran from what replaying
   the selected checkpoint gives, whatever earlier alternatives did to the process; the selected one is
   the first not refused.
8. **Exact algorithms**: paging, framing round trip, goal difference, identifier search, splicing and
   layout: which unit gets which logical name, and the maps between them.

## What the model found

The code is modelled as it is. Eight of its promises hold only under a condition:

* **A late release.** A session's `Drop` waits for its project and then releases the identifiers its book
  remembers (`crates/rocq-mcp/src/server.rs:322-343`). A boundary in between does not reach it, because a weak
  reference to it no longer upgrades (`crates/rocq-mcp/src/server.rs:409-418`); the next process may have given
  the same identifiers to another session's checkpoints, and the release takes those away. No fault is
  needed. `Sessions.GiveBack` says exactly when it does harm, `Server.ServerRuntime.Settle` that a timely
  release never does; `Witnesses.LateReleaseRobsAnother` is an instance.
* **A leak in `check`.** A `check` that finishes a proof, and then finds the source changed before the
  epoch is given up, clears the book without releasing its handles
  (`crates/rocq-mcp/src/adapter.rs:1196-1200`). `Checking.Check` says exactly when, `Publishing.Conclude`
  also which handles; `Witnesses.SourceChangeLeaksHandles` is an instance.
* **A stuck publication.** Every handle of the project is forgotten before the first write. When the
  publication gives up before its refresh and the write that would restore the source fails, nothing is
  refreshed (`crates/rocq-engine/src/writeback.rs:185-188`): the old process goes on exporting states
  nobody holds. `Writeback.Publish` and `Publishing.PublishProof` give the exact condition (`Stuck`),
  `Witnesses.StuckRollbackLeaksHandles` is an instance.
* **A leak in `prove`.** For a declaration that is already complete every handle of every session is
  forgotten first; when the very first look at the source then fails
  (`crates/rocq-engine/src/engine.rs:933`), the process and its epoch go on.
  `Tools.ProvePublished` and `Tools.Prove` give the exact condition and set,
  `Witnesses.MissedLookLeaksHandles` is an instance.
* **Rollback.** A failed publication can leave its replacement on disk although no write failed: the
  rollback treats an unreadable file as somebody else's (`crates/rocq-engine/src/writeback.rs:185-194`).
  `Writeback.Publish` ties the rollback to its moment, and `Writeback.ReplacementStays` says exactly when the
  replacement stays; `Writeback.UnreadableRollbackKeepsReplacement` is an instance.
* **An external twin.** The comment at `crates/rocq-engine/src/writeback.rs:97-98` says the external
  winner's bytes are never replaced; they are exactly when they equal the prepared replacement and the
  write goes through (`Writeback.ForeignBytesGo`). `Writeback.ExternalTwinIsOverwritten` is an
  instance; `Writeback.OnlyOwnTextIsOverwritten` is what does hold.
* **A lost boundary.** When one file's rebuild crosses an epoch boundary and a later file cannot be
  fingerprinted, the request leaves before the boundary is honoured, and the new fingerprint is already
  remembered (`crates/rocq-mcp/src/adapter.rs:598-600`). `Runtime.HonouredExactly` says exactly when a
  crossed boundary is honoured; `Witnesses.UnreadableFileLosesBoundary` is an instance.
* **Identifier search** misses whole occurrences of some needles with non-identifier characters.
  `Identifier.RightExactlyWhenAligned` says for exactly which needles it is right on every source.

## Model

| member | source | states |
|---|---|---|
| Server.ServerRuntime.Run | crates/rocq-mcp/src/server.rs:345-435 | after every action of any run over any projects each project is coherent, until handles lose their meaning where nobody can be told: a swallowed loss or a late release; in a world without the first, and with every release prompt, never; the run is told action by action, each beginning where the one before ended in time, disk, record and books, each answer meaning what was done and each peril tied to its action, its session's proof at that point and a moment of it; while none spills, as none can in a gentle world, every exported identifier has an owner or is about to be given back |
| Server.ServerRuntime.EveryHandleIsRight | crates/rocq-mcp/src/adapter.rs:1875-2055 | a handle on any checkpoint is exported by its own project's live process, owned by that checkpoint alone, and equals the replay of its fragments |
| Server.ServerRuntime.Step | crates/rocq-mcp/src/adapter.rs:657-738 | one action of any kind keeps the server's invariant, or handles lost their meaning silently, which without a swallowed loss only a late release can do; owners are kept unless the request spilled, at a moment of this action and on the acting session's proof; its chapter ties the answer to the books and the record before and after |
| Server.ServerRuntime.Handle | crates/rocq-mcp/src/adapter.rs:686-691 | a request keeps every project coherent unless it lost a prover silently; it moves no session, takes no identifier back, moves no graph of another project, and none at all and no file unless it commits; an unattached session is refused and nothing happens; what it lost is explained by its own moment, its own proof and the disk then; an error changed nothing, and an answer means, tool by tool, what was done to the session's project |
| Server.ServerRuntime.Begin | crates/rocq-mcp/src/adapter.rs:740-792 | `start` leaves the session attached to the named project without a proof, and all projects coherent |
| Server.ServerRuntime.Transfer | crates/rocq-mcp/src/adapter.rs:749-791 | a start that did not commit leaves every session's book, attached or not, as it was |
| Server.ServerRuntime.Restart | crates/rocq-mcp/src/adapter.rs:750-765 | starting again on the same project clears the proof and keeps the identifier counter |
| Server.ServerRuntime.Depart | crates/rocq-mcp/src/adapter.rs:767-782 | leaving a project carries the book, without its proof, to no project |
| Server.ServerRuntime.Enter | crates/rocq-mcp/src/adapter.rs:785-792 | a failed admission leaves the session unattached, a successful one attaches it with its book unchanged |
| Server.ServerRuntime.Leave | crates/rocq-mcp/src/server.rs:322-343 | the session goes out of the registry with its book kept, noted with the epoch it was in; every project stays coherent and what it held is promised |
| Server.ServerRuntime.LeaveFrom | crates/rocq-mcp/src/server.rs:322-330 | what a leaving session held is still exported and held by nobody attached or waiting |
| Server.ServerRuntime.Settle | crates/rocq-mcp/src/server.rs:331-341 | the release: the project stays right exactly if no attached checkpoint holds one of its identifiers, or, without a process, if it lost none anybody held; a timely one in a world without swallowed losses always leaves it right |
| Server.ServerRuntime.Turn | crates/rocq-mcp/src/adapter.rs:657-738 | one more action of a run: the chronicle goes on where it stood, and a prompt run in a world without swallowed losses goes on |
| Histories.ChronicleGrows | crates/rocq-mcp/src/adapter.rs:657-738 | chapters follow one another without a gap in time, disk, record or books |
| Histories.NoIdentifierComesBack | crates/rocq-mcp/src/checkpoint.rs:201-204 | over a whole run of requests, however many sessions and projects, no session moves and no checkpoint identifier comes back |
| Histories.OnlyChecksWrite | crates/rocq-mcp/src/adapter.rs:657-738 | a run that asks for no check, whatever else it asks for, writes to no file |
| Histories.RequestTells | crates/rocq-mcp/src/adapter.rs:657-738 | what a request promises is enough to tell its chapter: its peril and its answer are its own session's, on the books it had when it began |
| Histories.GentleRun | crates/rocq-mcp/src/adapter.rs:657-738 | in a world where nobody else writes and all reads and writes succeed no run spills anything |
| Histories.GentleRequest | crates/rocq-mcp/src/adapter.rs:657-738 | in such a world no request leaves anything without an owner |
| Histories.GentleCheck | crates/rocq-mcp/src/adapter.rs:1141-1212 | in such a world a check leaves nothing, given only what it promises |
| Histories.StillPromised | crates/rocq-mcp/src/server.rs:331-341 | a release takes from what is promised at most what it gives back |
| Server.ServerRuntime.Ensure | crates/rocq-mcp/src/server.rs:379-397 | at most one runtime and one prover per project |
| Dispatching.Dispatch | crates/rocq-mcp/src/adapter.rs:657-738 | coherent whatever happens; no commit means no graph or file changed; a committed request never answers cancelled, outside or inside a selected answer; no checkpoint identifier is ever reused; exported identifiers lose their owner exactly in a check whose publication, begun at a moment of this request after its commit, on this session's proof and the selected alternative, spills, and in a prove whose look at the bytes just read misses; an error changed no graph and no file; an answer means what its tool did (`Answers.Does`); a request cancelled before it is admitted, or whose project view cannot be had, gets to no tool, and a changed view begins an epoch |
| Dispatching.Attend | crates/rocq-mcp/src/adapter.rs:720-737 | an error that ends the epoch makes every session of the project forget its handles and leaves nothing exported; a cancellation also ends the process |
| Dispatching.DispatchAttached | crates/rocq-mcp/src/adapter.rs:816-935 | every tool keeps the common contract of all tools (`Served`): ownership, and that its answer means what it did |
| Dispatching.DispatchAbandon | crates/rocq-mcp/src/adapter.rs:905-927 | answers exactly when the request committed and the proof named is the session's; that proof is then gone, every other graph as it was and nothing left exported without an owner |
| Dispatching.DispatchRewind | crates/rocq-mcp/src/adapter.rs:1403-1479 | answers the checkpoint that is selected now, for a count of steps the one counted back; nothing else of any graph moved |
| Dispatching.DispatchTry | crates/rocq-mcp/src/adapter.rs:1293-1401 | one report for each alternative, Rocq's own from the selected checkpoint; nothing changed |
| Dispatching.DispatchSurvey | crates/rocq-mcp/src/adapter.rs:1533-1553 | answers only after the builds the world planned for these files, compared with what was remembered when it began |
| Dispatching.CheckDoes | crates/rocq-mcp/src/adapter.rs:984-1243 | what check promises is what its answer means: the alternative named, its publication begun only after its terminator was accepted, what was written, and what stands behind a published proof |
| Dispatching.ProveDoes | crates/rocq-mcp/src/adapter.rs:844-886 | what prove promises is what its answer means: that declaration's root, reported unfinished, or the whole certificate of a complete one |
| Answers.DoesEarlier | crates/rocq-mcp/src/adapter.rs:686-719 | what an answer means is the same seen from before the request was admitted, when only caches changed in between |
| Dispatching.RefreshLayout | crates/rocq-mcp/src/adapter.rs:692-719 | which verdict the world gives, cancellation first; a changed Dune view, and nothing else, clears artifacts, process and handles |
| Dispatching.CheckExplained | crates/rocq-mcp/src/adapter.rs:1141-1212 | a check loses something exactly if its peril spills, and that peril is its own: target, path, moment, disk |
| Dispatching.Excuse | crates/rocq-mcp/src/adapter.rs:720-737 | a loss nobody was told of harms nobody when no session holds a handle |
| Sessions.Retire | crates/rocq-mcp/src/adapter.rs:757-763 | retiring a proof before `start` keeps siblings coherent and every owner, even when it finds the prover lost |
| Sessions.InstallStartView | crates/rocq-mcp/src/adapter.rs:797-814 | a session joins with its book unchanged; a changed view is a project-wide boundary |
| Sessions.Unlist | crates/rocq-mcp/src/server.rs:322-330 | a session leaves the registry; exactly its own handles are then held by nobody attached |
| Sessions.GiveBack | crates/rocq-mcp/src/server.rs:331-341 | the books are right afterwards exactly if no attached checkpoint holds one of the identifiers given back, or, when there is no process, if none was lost that anybody held; exactly those identifiers go |
| Sessions.GivenBack | crates/rocq-mcp/src/server.rs:331-341 | releasing any set keeps the books right exactly if no attached checkpoint holds one of them |
| Sessions.LeftBooks | crates/rocq-mcp/src/server.rs:322-330 | without one session's book the others are coherent, and exactly its handles lost their owner |
| Checking.Check | crates/rocq-mcp/src/adapter.rs:984-1243 | the first alternative not refused is selected, with one refusal per earlier one, a timeout only under a deadline and with the epoch gone; exactly one child, or a published or lost proof; an error changes no graph and no file; a publication starts exactly when the selected state finishes the proof and the generated terminator was accepted there, and otherwise a finishing selection answers why not; what was written belongs to one publication of exactly this path, says its fragments in order and spares every other declaration; states lose their owner exactly when the publication spills, begun at a moment of this call after the commit, with the disk the script gives then and the source seen in place before; a selected answer never carries a cancellation; in a still world a finished proof is published |
| Checking.CheckFrom | crates/rocq-mcp/src/adapter.rs:1036-1224 | the same from an admitted base |
| Checking.FindFirst | crates/rocq-mcp/src/adapter.rs:1036-1058 | the first alternative not refused, pending over what was exported before, or the answer that there is none |
| Checking.TakeIfFound | crates/rocq-mcp/src/adapter.rs:1059-1212 | exactly the alternative found is closed, committed and, once its terminator is accepted, published; with none found nothing happens |
| Checking.CommitStep | crates/rocq-mcp/src/adapter.rs:1084-1111 | cancellation that won leaves the books as they were; otherwise exactly one child of the selected node |
| Checking.CloseStep | crates/rocq-mcp/src/adapter.rs:1059-1083 | a finishing alternative is let through only if the generated terminator is accepted in its state and ends the proof; trying it leaves the accepted state pending unless the epoch ended |
| Checking.Adopt | crates/rocq-mcp/src/adapter.rs:1096-1115 | the committed state has an owner, or, if the terminator lost the epoch, nobody has a handle |
| Checking.Undo | crates/rocq-mcp/src/adapter.rs:1104-1110 | a refused commit releases its state and changes no book |
| Checking.CommitAdopts | crates/rocq-mcp/src/checkpoint.rs:87-111 | committing a pending state keeps coherence and leaves nothing unowned |
| Checking.GrownFragments | crates/rocq-mcp/src/checkpoint.rs:191-199 | the published path is the parent's fragments followed by the accepted one |
| Checking.PublishedWell | crates/rocq-engine/src/writeback.rs:223-273 | what is published for a proof spares every other declaration of the prover's report and says the accepted fragments |
| Checking.AdvancedAged | crates/rocq-mcp/src/checkpoint.rs:87-111 | a selecting check spends one new identifier and reuses none |
| Checking.Finish | crates/rocq-mcp/src/adapter.rs:1141-1212 | publication of the committed path, seen from the graph before the commit; a leak exactly if it spills |
| Checking.Select | crates/rocq-mcp/src/adapter.rs:1055-1212 | close, commit and publish: one child more or no proof; publication starts only after the terminator was accepted after this fragment; a leak exactly if the publication came to its start, a moment of this call, and spills; no cancelled error after the commit |
| Publishing.LookTwice | crates/rocq-engine/src/engine.rs:1016-1018 | succeeds exactly if the source was seen unchanged twice and the text can be rendered; which error otherwise |
| Publishing.PublishProof | crates/rocq-engine/src/engine.rs:1007-1052 | handles are given up exactly when both looks succeed and the text can be rendered, with the exact error otherwise; afterwards nothing is exported, unless the publication got stuck, and then everything still is; completion carries the whole certificate, the prover's finished report on this declaration included; in a still world it completes |
| Publishing.Conclude | crates/rocq-mcp/src/adapter.rs:1151-1212 | published or moved away means cleared, any other failure keeps the proof; the source was found changed exactly if nothing was begun and the proof is gone; the exact set of handles left behind |
| Publishing.Remember | crates/rocq-mcp/src/adapter.rs:1172-1187 | after a publication the new fingerprint is remembered if it can be read, after a failed one none is |
| Publishing.Clear | crates/rocq-mcp/src/checkpoint.rs:157-161 | dropping a proof without release leaves exactly its handles unowned |
| Witnesses.SourceChangeLeaksHandles | crates/rocq-mcp/src/adapter.rs:1196-1200 | from a new project on, a whole check succeeds and leaves exported states without an owner because the source went away before the publication looked |
| Witnesses.StuckRollbackLeaksHandles | crates/rocq-engine/src/writeback.rs:185-188 | from a new project on, a whole check whose rollback cannot write leaves the old process exporting unowned states |
| Witnesses.MissedLookLeaksHandles | crates/rocq-mcp/src/adapter.rs:854-882 | from a new project on, a whole prove answers that the declaration changed, in the same epoch, with another session's state left unowned |
| Witnesses.UnreadableFileLosesBoundary | crates/rocq-mcp/src/adapter.rs:598-600 | from a new project on, a whole survey rebuilds a remembered artifact, meets an unreadable file and leaves process, epoch and handles of the old artifact in place |
| Witnesses.SecondFaultBreaksCoherence | crates/rocq-engine/src/pet/mod.rs:866-872 | from a new project on, a query whose goals are refused and whose release then loses the prover leaves another session's handle stale, with an error that does not say so |
| Witnesses.LateReleaseRobsAnother | crates/rocq-mcp/src/server.rs:322-343 | in a world without any fault a session closes, a boundary passes, another session opens a proof in the new process, and the late release takes its root away |
| Attempts.EnsureCurrentState | crates/rocq-mcp/src/adapter.rs:1875-1890 | the selected checkpoint is live afterwards and no graph changed |
| Attempts.Evaluate | crates/rocq-mcp/src/adapter.rs:1043-1056 | one alternative runs from what replaying the selected checkpoint gives, and is answered as Rocq answers there; a timeout only under a deadline, and it ends the epoch |
| Attempts.EvaluateLive | crates/rocq-mcp/src/adapter.rs:1046-1056 | the same from a live base; an expired attempt makes every session forget its handles |
| Attempts.RunAndTake | crates/rocq-mcp/src/adapter.rs:1046-1056 | one attempt over the live base: pending on top of what was exported, or refused with nothing new |
| Attempts.FirstAccepted | crates/rocq-mcp/src/adapter.rs:1036-1224 | all alternatives start from the same checkpoint; the accepted one is the first not refused; no tree changes |
| Attempts.BaseMeansReplay | crates/rocq-mcp/src/adapter.rs:1043-1045 | a live base denotes the replay of the graph as it was at any earlier time |
| Attempts.AdmitBase | crates/rocq-mcp/src/adapter.rs:996-1028 | source, build, base and goals are checked without touching any graph or file |
| Attempts.AdmitAttempts | crates/rocq-mcp/src/adapter.rs:984-1028 | the same for a list of alternatives; a list that may not be tried is refused before anything is looked at |
| Attempts.AdmitSource | crates/rocq-mcp/src/adapter.rs:1009-1010 | source unchanged and build current, without touching any graph or file |
| Attempts.TryFragments | crates/rocq-mcp/src/adapter.rs:1293-1401 | one report per alternative, all from the selected checkpoint; tree, selection, files and ownership unchanged and nothing committed |
| Attempts.TryOne | crates/rocq-mcp/src/adapter.rs:1347-1391 | an accepted hypothetical state is released before its report |
| Attempts.Discard | crates/rocq-mcp/src/adapter.rs:1359-1365 | releasing an unowned state restores exactly the earlier table |
| Tools.Prove | crates/rocq-mcp/src/adapter.rs:844-886 | refused outright while a proof is open; a new root of exactly the declaration named, unfinished by the prover's report, under a fresh identifier, or completion with build, refresh, the prover's report that it is finished, and a clean audit of it behind it; exactly which identifiers a missed first look leaves unowned, and nothing else does; the look is for the declaration named, in the bytes its file holds at a moment of this call; in a still world an unfinished declaration that owns its range is opened and a complete one validated |
| Tools.ProvePublished | crates/rocq-mcp/src/adapter.rs:854-882 | every handle is forgotten first; if the first look then fails the epoch goes on and exactly those handles are unowned, otherwise nothing exported is left; completion only with its certificate, for the declaration looked at; what is remembered of the file |
| Tools.ForgetAndValidate | crates/rocq-mcp/src/adapter.rs:854-870 | the same without the fingerprint: the source in place, the build, the source again, then the finished report and the audit, all at moments of this call |
| Tools.BeginProof | crates/rocq-mcp/src/adapter.rs:937-970 | the root becomes owned at the commit point, or is released, or the request was cancelled |
| Tools.BeginAdopts | crates/rocq-mcp/src/checkpoint.rs:57-85 | beginning a proof keeps coherence and leaves nothing unowned |
| Tools.DeclareProof | crates/rocq-mcp/src/adapter.rs:887-904 | opens a new declaration's proof, exactly the one asked for, without writing anything |
| Tools.Abandon | crates/rocq-mcp/src/adapter.rs:905-927 | succeeds exactly for the selected declaration and a request that commits; the proof is gone and nothing is left unowned |
| Tools.RetireProof | crates/rocq-mcp/src/adapter.rs:2076-2102 | releases every handle of the proof, counting a lost prover as released, and reports that loss |
| Tools.CollectHandles | crates/rocq-mcp/src/adapter.rs:2077-2083 | exactly the handles the book holds |
| Tools.ClearedAged | crates/rocq-mcp/src/checkpoint.rs:157-161 | abandoning a proof takes no identifier back |
| Tools.Rewind | crates/rocq-mcp/src/adapter.rs:1403-1479 | selects exactly the named or counted-back checkpoint, live; nothing else of any graph moves |
| Tools.Locate | crates/rocq-mcp/src/adapter.rs:1417-1441 | which checkpoint a rewind names, and when it names none |
| Tools.MoveTo | crates/rocq-mcp/src/adapter.rs:1455-1473 | makes the target live, commits, then selects |
| Tools.Survey | crates/rocq-mcp/src/adapter.rs:1533-1553 | building and looking at any set of files changes no graph and no file; its rounds, each at its own time, go as the world plans them, and one that ends at an unreadable file changes neither process nor handles |
| Tools.AskAbout | crates/rocq-mcp/src/adapter.rs:1677-1724 | a query about a declaration is asked in the selected proof's state exactly when that proof is the declaration's, else just after its place in the bytes its file holds at a moment of this call, in the environment loaded now; nothing is left behind |
| Tools.AskPlaced | crates/rocq-mcp/src/adapter.rs:1741-1748 | a query placed by its caller is asked just after that declaration, in the bytes its file holds at a moment of this call, never in the selected proof, and leaves nothing behind; when it loses the prover silently |
| Tools.AskSelected | crates/rocq-mcp/src/adapter.rs:1749-1772 | a query in the selected proof is asked in the replay of its selected checkpoint and leaves nothing behind |
| Replay.ReplayCheckpoint | crates/rocq-mcp/src/adapter.rs:1895-2055 | handles appear exactly on the missing suffix of the path; on failure no checkpoint changed and everything staged was released; it succeeds only if every node on the way can be made again, and in a still world it then succeeds |
| Replay.NextRuns | crates/rocq-mcp/src/adapter.rs:1976-2013 | with everything before it staged, the next node of a repeatable path runs to a state that may be held and completes as it did |
| Replay.RepeatableSince | crates/rocq-mcp/src/adapter.rs:1895-2055 | a live node can be made again, told of the graph as it was at any earlier time |
| Replay.StageSuffix | crates/rocq-mcp/src/adapter.rs:1949-2031 | rebuilds parent before child without touching any book |
| Replay.StageRoot | crates/rocq-mcp/src/adapter.rs:1949-1970 | a rebuilt root must finish as it did before, or is released |
| Replay.RunOrUndo | crates/rocq-mcp/src/adapter.rs:1987-2013 | an input that fails or ends differently gives back all that was staged |
| Replay.PutInPlace | crates/rocq-mcp/src/adapter.rs:2034-2055 | staged nodes become visible together, each owned, the graph unchanged |
| Replay.InstallStaged | crates/rocq-mcp/src/adapter.rs:2034-2053 | installs exactly the staged nodes and the list of replaced handles is empty |
| Replay.FirstMissing | crates/rocq-mcp/src/adapter.rs:1917-1922 | the first path node without a handle |
| Replay.ReleaseStaged | crates/rocq-mcp/src/adapter.rs:2057-2069 | the prover's table is what it was before staging |
| Replay.StageNode | crates/rocq-mcp/src/adapter.rs:2014-2020 | staging one more node keeps the draft coherent |
| Replay.PathIsBroken | crates/rocq-mcp/src/adapter.rs:1917-1975 | from the first missing node on, no path node has a handle |
| Runtime.ProjectRuntime.InvalidateProjectStates | crates/rocq-mcp/src/server.rs:403-435 | every attached session forgets every handle, no graph changes, and any process is then coherent |
| Runtime.ForgetEverywhere | crates/rocq-mcp/src/server.rs:409-434 | the current session first, then every other, all of them |
| Runtime.ProjectRuntime.BeginEpoch | crates/rocq-mcp/src/adapter.rs:711-718 | no process and no handle, together |
| Runtime.ReconcileArtifacts | crates/rocq-mcp/src/adapter.rs:581-645 | the rounds go as the world plans them, each file in the order of its first mention and three events after the one before; one restart exactly when a build failed, or some distinct file's build changed what was remembered or replaced an existing artifact and the loop came to its end; otherwise process, epoch and handles are untouched |
| Runtime.RebuildAll | crates/rocq-mcp/src/adapter.rs:588-639 | each distinct file once, at its own time, compared with what was remembered before the call; ends as, and as far as, the world plans |
| Runtime.HonouredExactly | crates/rocq-mcp/src/adapter.rs:581-645 | a crossed boundary is honoured exactly when neither an unreadable file nor an interruption stops the loop first |
| Runtime.LeavesAtFirst | crates/rocq-mcp/src/adapter.rs:597-637 | the loop ends in a given way exactly if some round ends that way before any other failure |
| Runtime.RoundsFollowPlan | crates/rocq-mcp/src/adapter.rs:597-637 | consecutive settled rounds are the prefix of the planned course |
| Runtime.Rebuild | crates/rocq-mcp/src/adapter.rs:597-630 | the recorded fingerprints are those the world showed before and after a successful build |
| Runtime.Distinct | crates/rocq-mcp/src/adapter.rs:588-593 | the files in the order of their first mention |
| Runtime.NoneTwice | crates/rocq-mcp/src/adapter.rs:588-593 | the same files, none twice |
| Runtime.MentionedInOrder | crates/rocq-mcp/src/adapter.rs:588-593 | the first mentions of a beginning of the list are a beginning of the first mentions |
| Coherence.CacheRefinesReplay | crates/rocq-mcp/src/adapter.rs:1892-2055 | a held handle denotes the replay of its fragments in the current environment, with the stored completion bit and view |
| Coherence.LiveClosedUnderPath | crates/rocq-mcp/src/adapter.rs:1917-1975 | every ancestor of a live checkpoint is live |
| Coherence.MissingIsASuffix | crates/rocq-mcp/src/adapter.rs:1917-1922 | below a checkpoint without a handle there are none on the path |
| Coherence.InvalidatedIsCoherent | crates/rocq-mcp/src/server.rs:403-435 | after invalidation the process may be anything, and no tree changed |
| Coherence.GrowthKeepsCoherence | crates/rocq-engine/src/pet/mod.rs:881-899 | exporting more, or starting with nothing held, disturbs nobody |
| Coherence.ReleaseKeepsCoherence | crates/rocq-engine/src/pet/mod.rs:782-805 | identifiers nobody holds may be released |
| Coherence.InstallKeepsCoherence | crates/rocq-mcp/src/checkpoint.rs:57-111 | giving a fresh handle to one node disturbs no other |
| Coherence.AdoptKeepsCoherence | crates/rocq-mcp/src/adapter.rs:1096-1103 | one state exported and adopted: coherent again and nothing unowned |
| Coherence.ShrinkKeepsCoherence | crates/rocq-mcp/src/checkpoint.rs:131-161 | selecting and clearing keep coherence |
| Coherence.ClearingOrphans | crates/rocq-mcp/src/checkpoint.rs:157-161 | clearing without release leaves exactly that book's handles unowned |
| Coherence.ForgettingOrphans | crates/rocq-mcp/src/adapter.rs:854-856 | forgetting every handle under a live process leaves exactly all of them unowned |
| Coherence.RetireKeepsCoherence | crates/rocq-mcp/src/adapter.rs:2076-2102 | clearing with release leaves nothing unowned |
| Coherence.CoherentAfterLoss | crates/rocq-mcp/src/server.rs:338-340 | after an unreported loss the books are right exactly if nobody holds anything |
| Coherence.AgedChain | crates/rocq-mcp/src/checkpoint.rs:201-204 | over any two stretches of time counters only grow and no dropped identifier comes back |
| Coherence.SameTreesAged | crates/rocq-mcp/src/checkpoint.rs:163-169 | operations that keep the graph use no identifier |
| Checkpoints.EveryHistoryIsATree | crates/rocq-mcp/src/checkpoint.rs:57-205 | over every history the book is a tree with one root and parents below children, and identifiers are never reused |
| Checkpoints.OneCommandKeepsTheTree | crates/rocq-mcp/src/checkpoint.rs:57-169 | every operation keeps the tree and never lowers the counter |
| Checkpoints.GrowingKeepsTheTree | crates/rocq-mcp/src/checkpoint.rs:87-111 | one node more, below a node of the tree and above every identifier in it, keeps it a tree |
| Checkpoints.PathIncreases | crates/rocq-mcp/src/checkpoint.rs:172-189 | paths are strictly increasing |
| Checkpoints.PathUnique | crates/rocq-mcp/src/checkpoint.rs:172-189 | any parent chain from the root to a node is its path |
| Checkpoints.FragmentAt | crates/rocq-mcp/src/checkpoint.rs:191-199 | each path node but the root carries the fragment of its own step |
| Checkpoints.WalkPath | crates/rocq-mcp/src/checkpoint.rs:172-189 | the cursor loop, turned around, is the path |
| Checkpoints.CollectFragments | crates/rocq-mcp/src/checkpoint.rs:191-199 | the accepted inputs along the path, in order |
| Checkpoints.WalkBack | crates/rocq-mcp/src/checkpoint.rs:140-155 | the k-th entry from the end of the path, failing exactly when k is 0 or reaches its length |
| Checkpoints.ForgetEach | crates/rocq-mcp/src/checkpoint.rs:163-169 | every node loses its handle and nothing else |
| Checkpoints.CheckpointBook.Begin | crates/rocq-mcp/src/checkpoint.rs:57-85 | a tree stays a tree; a second proof is refused |
| Checkpoints.CheckpointBook.Commit | crates/rocq-mcp/src/checkpoint.rs:87-111 | one child of the selected node under the next identifier, now selected; the identifier is spent even without a proof |
| Checkpoints.CheckpointBook.Select | crates/rocq-mcp/src/checkpoint.rs:131-138 | only the selection moves, only to a known node |
| Checkpoints.CheckpointBook.Clear | crates/rocq-mcp/src/checkpoint.rs:157-161 | the proof goes, the counter stays |
| Checkpoints.CheckpointBook.InvalidateStates | crates/rocq-mcp/src/checkpoint.rs:163-169 | handles go, the graph stays |
| Checkpoints.CheckpointBook.PathTo | crates/rocq-mcp/src/checkpoint.rs:172-189 | the path, or which error |
| Checkpoints.CheckpointBook.FragmentsTo | crates/rocq-mcp/src/checkpoint.rs:191-199 | the fragments, or which error |
| Checkpoints.CheckpointBook.StepsBack | crates/rocq-mcp/src/checkpoint.rs:140-155 | the counted-back node, or which error |
| Checkpoints.CheckpointBook.Allocate | crates/rocq-mcp/src/checkpoint.rs:201-204 | the next identifier, or exhausted at the end of the 64-bit range |
| Prover.Rocq.RunAppend | crates/rocq-mcp/src/adapter.rs:1976-2020 | running a path and then one more fragment is running the longer path |
| Requests.FirstSignalWins | crates/rocq-engine/src/request.rs:37-74 | in every interleaving the first signal wins and the rest change nothing |
| Requests.CommitExcludesCancellation | crates/rocq-engine/src/request.rs:53-74 | once committed, no later history is cancelled |
| Requests.SettledForever | crates/rocq-engine/src/request.rs:37-74 | a decided request never moves again |
| Requests.RequestCancellation.Commit | crates/rocq-engine/src/request.rs:65-74 | true exactly when no interruption won first |
| Requests.RequestCancellation.Cancel | crates/rocq-engine/src/request.rs:37-44 | moves only an active request |
| Requests.RequestCancellation.TimeOut | crates/rocq-engine/src/request.rs:46-51 | moves only an active request |
| Hosts.Host.Commit | crates/rocq-mcp/src/adapter.rs:549-555 | won exactly if committed, else cancelled |
| Hosts.DriftOn | crates/rocq-engine/src/writeback.rs:93-113 | what other programs make of the files in one stretch of time and then another is what they make of them in both |
| Outcomes.Project | crates/rocq-engine/src/engine.rs:1839-1947 | each of the dispatcher's three error classes is reported exactly for the errors it stands for |
| Outcomes.ReleaseError | crates/rocq-mcp/src/adapter.rs:2137-2155 | the same for release errors |
| Outcomes.RemoteError | crates/rocq-engine/src/engine.rs:1839-1858 | no semantic rejection is ever reported as the end of an epoch |
| Pet.PetActor.CallLive | crates/rocq-engine/src/pet/mod.rs:905-921 | exactly how a request ends; a loss, deadline or cancellation leaves no process, anything else leaves it as it was |
| Pet.PetActor.EnsureProcess | crates/rocq-engine/src/pet/mod.rs:923-968 | a process with the workspace, everything exported before still exported, or an error that says truly what is left |
| Pet.PetActor.CallInWorkspace | crates/rocq-engine/src/pet/mod.rs:881-899 | the same for a call that may start the process |
| Pet.PetActor.Release | crates/rocq-engine/src/pet/mod.rs:782-805 | exactly the given identifiers go, or the process does |
| Pet.PetActor.Materialize | crates/rocq-engine/src/pet/mod.rs:858-879 | a state whose goals cannot be had is not kept; exactly when a loss is swallowed |
| Pet.PetActor.Keep | crates/rocq-engine/src/pet/mod.rs:858-879 | one new export, or none |
| Pet.PetActor.ReleaseOnDrop | crates/rocq-mcp/src/server.rs:338-340 | best-effort release, and when its loss goes unreported |
| Pet.PetActor.StateAt | crates/rocq-engine/src/pet/mod.rs:515-530 | exports exactly the state at the position in the bytes the file holds when it is asked, under the identifier the prover hands out next; when a loss is swallowed |
| Pet.PetActor.Run | crates/rocq-engine/src/pet/mod.rs:534-572 | exports the state the fragment leads to, or nothing |
| Pet.PetActor.RunTraced | crates/rocq-engine/src/pet/mod.rs:577-682 | a rejection exports the state just before the rejected sentence |
| Pet.PetActor.Ask | crates/rocq-engine/src/pet/mod.rs:735-778 | a query leaves the table as it was |
| Pet.PetActor.Assumptions | crates/rocq-engine/src/pet/mod.rs:698-731 | what a declaration rests on, as Rocq reports it in exactly the state asked about; nothing exported changes |
| Pet.PetActor.Refresh | crates/rocq-engine/src/pet/mod.rs:837-856 | success means a new epoch with nothing exported, in what the prover then loads |
| Pet.PetActor.Restart | crates/rocq-engine/src/pet/mod.rs:828-832 | no process, one epoch later |
| Engine.ValidateTarget | crates/rocq-engine/src/engine.rs:1054-1086 | succeeds exactly if the file is selected, readable and holds the bytes the proof was begun on |
| Engine.Run | crates/rocq-engine/src/engine.rs:705-736 | exports one safe state, the fragment's, or nothing |
| Engine.KeepSafe | crates/rocq-engine/src/engine.rs:723-731 | a state outside a proof or with a goal given up is released |
| Engine.RunTraced | crates/rocq-engine/src/engine.rs:743-789 | accepted with one safe state exported, or rejected with nothing left; refused when the source is not in place |
| Engine.KeepTraced | crates/rocq-engine/src/engine.rs:757-787 | the temporary state of a rejection is released before it is returned |
| Engine.Goals | crates/rocq-engine/src/engine.rs:791-812 | looking at goals changes nothing |
| Declarations.Replaceable | crates/rocq-engine/src/engine.rs:1415-1428 | comparing every pair flags exactly the records no other record intersects |
| Declarations.CheckRows | crates/rocq-engine/src/engine.rs:1133-1167 | accepts exactly reports whose records all fit the bytes and have distinct paths, with the right error otherwise |
| Engine.LookUp | crates/rocq-engine/src/engine.rs:1113-1220 | the record the prover reports for these bytes, every record of the report validated and replaceability computed from all of them |
| Engine.OpenDeclaration | crates/rocq-engine/src/engine.rs:511-541 | opens the root of a declaration whose range no other record touches, with the target the prover reports for the bytes its file holds, or reports it finished with nothing exported; in a still world it does either |
| Engine.OpenFound | crates/rocq-engine/src/engine.rs:528-541 | an unfinished declaration that owns its range is opened at the end of its header |
| Engine.FindTarget | crates/rocq-engine/src/engine.rs:511-530 | the target the prover reports for the bytes the file holds, and whether it is complete |
| Engine.RunAndRelease | crates/rocq-engine/src/engine.rs:1646-1654 | the base is released whatever the run did; a failed release takes precedence |
| Engine.RunHeader | crates/rocq-engine/src/engine.rs:592-614 | a new header's state at its insertion point, and only it, is exported: the root of the target |
| Engine.InsertionPoint | crates/rocq-engine/src/engine.rs:567-591 | the prover's own insertion point for a name not yet declared, within the bytes |
| Engine.Declare | crates/rocq-engine/src/engine.rs:543-643 | the root of the new declaration in the current environment, its target an empty range at the insertion point, disk untouched |
| Engine.ReplayRoot | crates/rocq-engine/src/engine.rs:646-702 | the root of the same declaration over the same source bytes, in whatever environment there is now; refused when the source is not in place, and in a still world succeeds if the root is ready |
| Engine.ReopenTarget | crates/rocq-engine/src/engine.rs:679-701 | refuses a declaration whose kind, statement or source changed |
| Engine.CloseProof | crates/rocq-engine/src/engine.rs:966-989 | the terminator is accepted and really ends the proof, and nothing it exported survives; refused when the source is not in place |
| Engine.QueryAt | crates/rocq-engine/src/engine.rs:836-863 | asks in the state just after the declaration, in the bytes its file holds at a moment of this call and the environment loaded now, and releases that temporary state before returning |
| Writeback.Publish | crates/rocq-engine/src/writeback.rs:75-167 | succeeds exactly without a rollback and then with its certificate, the prover's finished report on the declaration as written included; its first write is the one the world allowed at its first event, its rollback the one the world allowed at a later event over what was then on disk, both for every failure; what the prover exported survives exactly if it got stuck; cancelled only if cancelled; in a still world it succeeds |
| Writeback.ReplacementStays | crates/rocq-engine/src/writeback.rs:143-221 | after a failed publication the replacement is still the server's own text on disk exactly if the first write put it there, nobody touched the file from then to the end, and the rollback could not read or could not write |
| Writeback.ForeignBytesGo | crates/rocq-engine/src/writeback.rs:93-113 | a rollback takes another program's bytes away exactly if they equal the replacement, could be read and the write went through |
| Writeback.OursUntilDisturbed | crates/rocq-engine/src/writeback.rs:175-221 | text of the server's own is on disk exactly until somebody touches its file |
| Writeback.OnlyOwnTextIsOverwritten | crates/rocq-engine/src/writeback.rs:83-221 | whatever was overwritten was the original or the replacement |
| Writeback.ReplaceIf | crates/rocq-engine/src/writeback.rs:88-126 | the exact outcome, disk and record of one compare-and-write |
| Writeback.RestoreEpoch | crates/rocq-engine/src/writeback.rs:175-221 | writes only over our own replacement, then builds and refreshes whatever won, leaving nothing exported; succeeds exactly if both went through; a failed write leaves the process exactly as it was |
| Writeback.Certify | crates/rocq-engine/src/writeback.rs:128-141 | build, confirm, refresh, confirm, validate, confirm, in this order and one epoch, the replacement seen in place and the declaration reported finished and of its kind at moments of this call; exactly when it stops before the refresh, and where; cancelled only if cancelled |
| Writeback.Rebuild | crates/rocq-engine/src/writeback.rs:130-134 | build and refresh, the replacement confirmed after each; exactly when the refresh is reached; cancelled only if cancelled |
| Writeback.Prepare | crates/rocq-engine/src/writeback.rs:24-58 | the exact condition for a prepared transaction, and its exact contents (`Splicing.Render`) |
| Writeback.NativeBuild | crates/rocq-engine/src/writeback.rs:277-321 | succeeds exactly if not cancelled and Dune succeeded |
| Writeback.RequireContents | crates/rocq-engine/src/writeback.rs:379-394 | the file held exactly these bytes |
| Writeback.BuildAndRefresh | crates/rocq-engine/src/writeback.rs:326-347 | refreshed after success and rejection alike |
| Writeback.ValidatePublished | crates/rocq-engine/src/engine.rs:921-962 | a failed first look leaves the prover untouched, anything later leaves nothing exported; completion only after the source was in place, the build, the source again, the prover's report that this declaration is finished, and a clean audit of it, in one epoch and at moments of this call; nothing written; in a still world it completes |
| Writeback.Validate | crates/rocq-engine/src/engine.rs:1027-1050 | the prover reports the declaration finished, and of the same kind when one is required, for the bytes its file holds at a moment of this call, and its audit in the refreshed epoch is clean |
| Writeback.ResolveFinished | crates/rocq-engine/src/engine.rs:1027-1041 | the first half: finished, a proof declaration, of the kind expected, by the prover's report for the bytes on disk at a moment of this call |
| Writeback.ValidateAndConfirm | crates/rocq-engine/src/writeback.rs:135-137 | the validation, and after it the replacement still in place |
| Writeback.LookAndValidate | crates/rocq-engine/src/engine.rs:938-962 | the source seen in place once more, and then the validation of the declaration it names |
| Writeback.Audit | crates/rocq-engine/src/engine.rs:1222-1244 | a clean report on this declaration, asked for at the end of its file as that reads at a moment of this call, in the current epoch; the context is released either way |
| Writeback.JudgeReport | crates/rocq-engine/src/engine.rs:1246-1319 | accepts only reports with safe theory whose every assumption is an axiom of a project file, listed as one, in one and the same environment, by the bytes that file held at a moment of this call, and in a still world all of those; an unfinished dependency is an axiom whose own file lists something else there at a moment of this call |
| Writeback.UnreadableRollbackKeepsReplacement | crates/rocq-engine/src/writeback.rs:185-194 | no write failed and the replacement stays |
| Writeback.ExternalTwinIsOverwritten | crates/rocq-engine/src/writeback.rs:93-113 | another program's bytes are replaced because they equal the replacement |
| Splicing.OutsideIsKept | crates/rocq-engine/src/writeback.rs:269-273 | text before the range stays, text after it shifts by one amount |
| Splicing.OtherDeclarationsAreKept | crates/rocq-engine/src/engine.rs:1417-1428 | a replaceable range disturbs no other listed record |
| Splicing.SharedRangeLosesBytes | crates/rocq-engine/src/engine.rs:1417-1428 | a range that is not replaceable has a replacement that destroys bytes of another record |
| Splicing.InsertionSplits | crates/rocq-engine/src/engine.rs:567-591 | an insertion leaves a record unbroken exactly if it is not strictly inside it |
| Splicing.Render | crates/rocq-engine/src/writeback.rs:223-273 | growing the buffers step by step gives the specified text; succeeds exactly if the ranges fit and the header is text, with the exact error otherwise; the text says the header, the fragments and the terminator (`Says`) |
| Splicing.ReplacementSays | crates/rocq-engine/src/writeback.rs:223-273 | at an offset for each of them, in order and one to a line, the published text holds the header with its period, `Proof.` unless a definition, every fragment without its surrounding spaces and the terminator, between what stood before and after the range |
| Splicing.SaysOnce | crates/rocq-engine/src/writeback.rs:223-273 | no other text does |
| Splicing.StrippedOnce | crates/rocq-engine/src/writeback.rs:260-263 | a text is spaces, its stripped form and spaces in only one way |
| Splicing.ReplacementIsLocal | crates/rocq-engine/src/writeback.rs:223-273 | publication changes the file only inside the target's range |
| Splicing.PublicationKeepsOtherDeclarations | crates/rocq-engine/src/engine.rs:1133-1146 | for every target an open proof can have, publication keeps every other record of the prover's report, before at the same offset and after at one common shift |
| Paging.ReadAll | crates/rocq-mcp/src/adapter.rs:1834-1855 | following the offsets terminates, never fails and reads the whole text in well-formed pages within the bound |
| Paging.TextResult | crates/rocq-mcp/src/adapter.rs:1834-1855 | which offsets are accepted, and that the page ends at the last boundary within reach |
| Paging.BoundedView | crates/rocq-mcp/src/adapter.rs:1863-1873 | a checkpoint keeps a first page |
| Paging.ViewIsFirstPage | crates/rocq-mcp/src/adapter.rs:1834-1873 | the kept view is the first page of the query, with the same continuation |
| Utf8.BoundaryIsExact | crates/rocq-mcp/src/adapter.rs:1837-1848 | the boundary test accepts exactly the cuts that leave two well-formed texts |
| Utf8.BoundaryNearby | crates/rocq-mcp/src/adapter.rs:1846-1849 | stepping back meets a boundary within three bytes |
| Framing.FramesRoundTrip | crates/rocq-engine/src/pet/mod.rs:1363-1452 | any sequence of bodies within the limit is read back in order, and nothing after it is consumed |
| Framing.FrameRoundTrip | crates/rocq-engine/src/pet/mod.rs:1363-1452 | the reader takes exactly one frame off any stream that starts with one |
| Framing.HeaderAnnounces | crates/rocq-engine/src/pet/mod.rs:1420-1440 | a written header announces exactly its length |
| Framing.DigitsOfDecimal | crates/rocq-engine/src/pet/mod.rs:1363-1367 | printing a length and reading it back gives the length |
| Framing.ReadResponse | crates/rocq-engine/src/pet/mod.rs:1400-1452 | the loops compute the specified reading, errors included |
| Framing.ReadLineBounded | crates/rocq-engine/src/pet/mod.rs:1560-1576 | one line within the bound, overflow or loss |
| Framing.ReadHeader | crates/rocq-engine/src/pet/mod.rs:1405-1419 | blank lines before a header are skipped, one after it ends it |
| Framing.ReadLength | crates/rocq-engine/src/pet/mod.rs:1420-1440 | the one length all header lines agree on, or a protocol error |
| GoalDiff.Diff | crates/rocq-mcp/src/adapter.rs:280-337 | removed and added are the two multiset differences, unchanged counts the intersection, ambiguous exactly if some key of the left occurs twice on the right |
| GoalDiff.RoundTallies | crates/rocq-mcp/src/adapter.rs:303-319 | one greedy round keeps the tally the multiset difference of what was seen |
| GoalDiff.Matches | crates/rocq-mcp/src/adapter.rs:304-309 | how many free equal goals there are, and which is first |
| GoalDiff.Unclaimed | crates/rocq-mcp/src/adapter.rs:320-324 | exactly the goals no earlier goal claimed |
| Identifier.ContainsIdentifier | crates/rocq-engine/src/engine.rs:1737-1761 | never wrong when true; for identifier needles true exactly if some occurrence is whole |
| Identifier.NothingSkipped | crates/rocq-engine/src/engine.rs:1742-1758 | jumping past a rejected occurrence loses nothing for aligned needles |
| Identifier.SomethingSkipped | crates/rocq-engine/src/engine.rs:1742-1758 | for any other needle some source has a whole occurrence that is missed |
| Identifier.RightExactlyWhenAligned | crates/rocq-engine/src/engine.rs:1737-1761 | the search is right on every source exactly for aligned needles |
| Identifier.IdentifiersAreAligned | crates/rocq-engine/src/engine.rs:1733-1736 | needles of identifier characters are aligned |
| Layout.Load | crates/rocq-engine/src/dune/mod.rs:38-137 | succeeds exactly if the units resolve to entries no two of which share a file or a library; every entry is its unit's: prefix, directories below the mapping in order, stem; the maps are then mutually inverse and hold exactly those entries; ambiguous exactly if some clash |
| Layout.LoadUnits | crates/rocq-engine/src/dune/mod.rs:56-126 | the same for a given order of units |
| Layout.UnitsAre | crates/rocq-engine/src/dune/mod.rs:44-52 | how often a mapping and a source make a unit: once for each pair of occurrences, if the directory is above the source and the prefixes are equal |
| Layout.UnitsMeet | crates/rocq-engine/src/dune/mod.rs:44-52 | which pairs are units |
| Layout.Components | crates/rocq-engine/src/dune/mod.rs:77-108 | a relative path is spelled part by part in order, the last by its stem, or has no spelling |
| Layout.BecomesOne | crates/rocq-engine/src/dune/mod.rs:64-109 | a unit becomes at most one entry |
| Layout.HoldsCovers | crates/rocq-engine/src/dune/mod.rs:38-137 | every mapping and source that meet are in the maps under the entry they become, and nothing else is |
| Layout.InsertKeeps | crates/rocq-engine/src/dune/mod.rs:110-125 | one insertion keeps the maps inverse, or proves the layout ambiguous |
| Layout.SourceForConstant | crates/rocq-engine/src/dune/mod.rs:162-175 | the file of the longest proper library prefix, whatever the order of the map |
| Layout.LongestIsUnique | crates/rocq-engine/src/dune/mod.rs:162-175 | there is only one such prefix |

## Left out

- Process spawning, pipes, signals, poll loops, the lifeline thread and stderr draining: represented by the events a host meets.
- Running Dune, layout probes, temporary files, renames and syncing: only their outcomes are kept; a write may land and still report an error.
- Rocq itself, goal decoding, JSON rendering, schemas and error wording: projections that would add only easy members. A checkpoint's view stands for the first page of its rendered goals; retaining structured goals is not modelled.
- `enrich_declaration_error` and symbol ranking: advisory; the former swallows one more prover error, which the model does not contain.
- Releases by a live prover are taken to succeed or to lose the process; a prover that refuses a release and stays alive is not modelled.
- Digests are taken to be injective, so a target carries its source bytes.
- Locks, deadlock freedom and progress records: each tool call is one step under its project's barrier, and requests of different projects do not interleave inside one another except through the shared disk, which any event may change.
- White space in fragments and headers is ASCII white space; the program trims Unicode white space.
- Header text of `declare` arrives already formatted, and qualified names are not parsed.
- Runtimes of projects nobody is attached to are kept; the program drops them.
- The S-expression reader for Dune output and the choice of PET load paths: no round trip holds for the former, and the latter is a filter.
- `source_position` and the stderr tail: small and unrelated to the protocol.
- HTTP and stdio transport, client roots, the trace runner, skills documents and scripts: plumbing.
- Splicing.InsertionSplits: that the prover's insertion points never fall inside another declaration is the prover's promise, not the server's, and is not assumed.
- Engine.LookUp: the prover's check of a document and the server's reading of its bytes are one step, so an edit between them is not modelled.
- Pet.PetActor.StateAt: reads the file in the step of the look before it; the program may meet an edit between the two, which the model puts before both.
- Engine.ReplayRoot: for the same reason an edit between its validation and its state request is not modelled.
- Engine.ReopenTarget: the same.
- Pet.PetActor.Release: a live prover that refuses a release is not modelled, as said above.
- Engine.Declare: header text arrives formatted and names are not qualified, as said above.
- Writeback.JudgeReport: the project file of an assumption is given with it; finding it from its path is `Layout.SourceForConstant`.
- Server.ServerRuntime.Run: stops at a loss nobody is told of, or at a late release that takes another session's state; what later requests do with the stale handles is not followed.
- Declarations.CheckRows: does not compare a record's path with the library name of its Dune unit, because names are not qualified in the model.
