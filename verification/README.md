# A Dafny model of agent-collab

agent-collab runs a workflow of coding agents as staged turns, under a daemon that keeps each
session's event log, input queue, answers and long-poll waiters. This project models its hard parts
and proves what they are relied on for. Check it with `dafny verify dfyconfig.toml`.

## What is modelled

**A session's run.** `SessionProtocol` joins the referee's control flow and the daemon's record of
the same session into one state, changed by atomic actions: an action is what runs between two real
suspension points. Parallel members interleave freely; a runner may keep emitting after a turn that
did not complete, or after the referee gave the turn up; stop, cancellation, failure and a daemon
restart may come anywhere between actions. `SessionInvariants` and `SessionSteps` keep the
invariants, `SessionTheorems` states the promises over all legal runs. `LiveSession` holds the
objects themselves, the tracked queue, the managed session and the referee. Its referee is `Valid`
when some legal run of the protocol leads to the state that the objects hold; every method that is
one stretch without a suspension updates fields in place, keeps `Valid`, so that methods may be
called in any sequence (`RunPlannedTurn` is one), and says what callers see. `Answers` has the two
ways an answer is found, `Outcomes` the outcome and failure records and how provider evidence is
resolved. `Wakeup` is a separate protocol for the condition variable, its coalesced notifications
and the waiters; `Cursor` is paging through events, `EventFile` the session file, `Utf8` the
byte-bounded cut.

**Retention and pruning.** `Retention` selects, `Prune` unlinks and rewrites the index, `PruneRuns`
puts whole runs together with every crash and failure point.

**Autostart.** `Units` is a small world of one definition file, two recovery slots, the enabled and
active bits and a detached daemon. Every operation may fail, a failing command may have had its
effect, somebody else may interfere; a query that answers, answers truthfully. `Autostart`,
`AutostartInstall` and `AutostartLaunchd` are the transactions over it.

**Codecs.** `ShellWords`, `TextLines`, `UnitCodec` and `UnitRoundTrip` are the systemd unit printer
and parser; `TomlTables` and `TomlSyntax` the TOML-subset parser.

## Where the code does less than it says

Each of these is a theorem: the exact condition under which the promise holds, a concrete input or
run that breaks it, or both.

- `agent_collab/retention.py` and the prune code call rerunning the selection the recovery
  mechanism. After a crash with sessions still live, the restarted daemon ends those sessions as
  interrupted, they count as newest, and they take places of the keep count: sessions that the keep
  count had saved expire too. `PruneRuns.PruneConverges` gives the exact condition,
  `PruneRuns.RestartExpiresMore` two sessions, a crash and a restart where it happens.
- A status setter that is cancelled while it waits for the condition's lock takes its wakeup with
  it. A waiter that could return is left with nothing coming exactly at a step where such a setter
  is cancelled while it owes the only notification and someone has missed it
  (`Wakeup.LosesExactlyWhen`), and over a run exactly when the run has such a step
  (`Wakeup.NoLostWakeup`); `Wakeup.CancelledSetterLosesWakeup` is a run that has one.
- The idle timeout cancels the wait for a post even where the queue holds one: always with
  `interactive_idle_timeout = 0`, which the daemon accepts, and otherwise where a post arrives with
  the timeout. A session that ended as done consumed every accepted post exactly when its close was
  not decided over a post (`SessionTheorems.DoneConsumedEveryPost`);
  `SessionTheorems.EarlyCloseLosesPost` loses one.
- Turn records accept only identifiers as agent names, and a persona is named by any TOML key. A
  turn's record is accepted exactly if the agent's name is an identifier and its backend is
  registered (`SessionTheorems.RecordableExactlyWhen`). Otherwise the record's constructor raises,
  the turn is never published (`SessionTheorems.RefusedAgentNeverCommits`), and the run ends as
  broken (`SessionTheorems.RefusalBreaksTheRun`).
- Events are written with non-ASCII characters as they are and read back with `splitlines`, so an
  event whose text holds U+0085, U+2028 or U+2029 is lost at a restart and later ids shift
  (`EventFile.ReadBackExactlyWhen`).
- launchd's preservation of prior bytes overwrites this home's own recovery even where the snapshot
  of recoveries does not name it; quarantine refuses that slot
  (`AutostartLaunchd.PreserveIgnoresSnapshotExactlyWhen`).
- The TOML subset compares header parts as written but enters tables by their trimmed names. An
  accepted document keeps the value of each of its assignments exactly when no later line reaches
  into an inline table: a key below it, or a header that makes a table inside it
  (`TomlTables.DocumentHoldsExactlyWhen`). Headers without outer blanks in their parts never do
  (`TomlTables.TrimmedDocumentHolds`); a key below a quoted header part with outer blanks does
  (`TomlTables.UntrimmedHeaderExtendsInlineTable`), and so does such a header with no key below it
  (`TomlTables.UntrimmedHeaderAloneExtends`).
- A value made of digits and minus signs may raise an uncaught `ValueError` instead of a
  configuration error: with two minus signs, with a digit such as a superscript that is not decimal,
  or with more digits than the interpreter converts, and in no other case
  (`TomlSyntax.NumberCrashesExactlyWhen`, `TomlTables.UncaughtExactlyWhen`).
- A unit whose interpreter, host, working directory, search path or home holds a line break other
  than a line feed or carriage return is rendered but never parses (`UnitRoundTrip.RoundTrip`).
- A detached daemon whose stop fails after it has stopped is not put back by a failed enable. Where
  a failed enable reports no recovery error, this is the only way in which the detached daemon ends
  up other than it was (`Autostart.EnableAutostart`); `Autostart.HalfStoppedRun` is such a run.

## Model

| member | source | states |
|---|---|---|
| SessionSteps.StepKept | agent_collab/referee.py:414-876 | every action, by any runner, poster, stopper or restart, keeps all session invariants at once |
| SessionTheorems.Reached | agent_collab/daemon.py:1353-1440 | the invariants hold in every state that any legal run reaches |
| SessionTheorems.ReachableSteps | agent_collab/daemon.py:1353-1440 | an enabled action leads from a state that some legal run reaches to another such state |
| SessionTheorems.LedgersAgree | agent_collab/daemon.py:1259-1320 | the ledger built live by scanning each completed turn's span is the one derived by a single pass over the events, and over the file after a restart: same agents, order, event ids and final-over-last choice |
| SessionTheorems.AnswersAreLatest | agent_collab/daemon.py:1259-1320 | each reported answer is that of the agent's latest completed turn that had one, and there is none without such a turn |
| SessionTheorems.FailedAgentNeverReturns | agent_collab/referee.py:653-661 | an agent whose turn did not complete never runs another turn |
| SessionTheorems.LogAndOutcomes | agent_collab/referee.py:476-522 | while the log is open, transcript, file and daemon list are one sequence; boundaries are the outcomes in order; turn ids are distinct and each turn is committed at most once |
| SessionTheorems.SettledIsIdle | agent_collab/daemon.py:1214-1225 | a live session that counts as settled has an empty queue, nothing in process, no active or open turn |
| SessionTheorems.SettledIsHonest | agent_collab/daemon.py:1227-1257 | over every run, a settled live result is idle and carries the answers its events give; a heartbeat carries none |
| SessionTheorems.DoneAccountsForPosts | agent_collab/referee.py:775-876 | in a run that ended as done each accepted post was consumed exactly once in posting order or is left in the queue behind those, and each consumed routed post has one completed directed turn by the agent it was routed to, in order |
| SessionTheorems.DoneConsumedEveryPost | agent_collab/referee.py:841-876 | such a run consumed every accepted post if and only if its idle close was not decided over a post |
| SessionTheorems.LeftoverExactlyWhen | agent_collab/referee.py:851-871 | no other step leaves a post behind on the way to a normal end |
| SessionTheorems.EarlyCloseLosesPost | agent_collab/referee.py:851-871 | every waiting session that accepts posts has a continuation to done in which the next post is lost |
| SessionTheorems.NoPostAfterClose | agent_collab/daemon.py:1724-1738 | once the idle close is decided or the run leaves, no continuation accepts a post |
| SessionTheorems.TerminalIsFinal | agent_collab/daemon.py:1541-1586 | a terminal status, its end time and its failure never change again, whatever races |
| SessionTheorems.FailureIsTruthful | agent_collab/daemon.py:1399-1430 | for every plan, whatever its agents are called: a failure exists exactly when the status is failed, an end time exactly when it is terminal; a failure naming a turn is what the projection, which accepts it, makes of a committed outcome that did not complete |
| SessionTheorems.RecordableExactlyWhen | agent_collab/outcomes.py:229-256 | the record of an arbitrated turn is accepted exactly if its agent's name is an identifier and its backend is registered: the allocated turn id, the stage and the outcome never stand in the way |
| SessionTheorems.RefusedAgentNeverCommits | agent_collab/outcomes.py:235-256 | every published record passed the constructor's checks, so no turn of an agent whose name is no identifier is ever published |
| SessionTheorems.RefusalBreaksTheRun | agent_collab/referee.py:573-661 | a finished turn, or a parallel stage not being stopped, with a refused record leaves the run as broken |
| SessionTheorems.VisibleMeaning | agent_collab/referee.py:368-379 | the delta of a stretch holds exactly the events that are neither the agent's own nor session bookkeeping |
| SessionTheorems.PromptsLoseNothing | agent_collab/referee.py:390-412 | what continuation prompts sent an agent since its last stand-alone prompt is the visible transcript between the two snapshots, nothing lost or repeated, the watermark within the transcript |
| SessionTheorems.RunMonotone | agent_collab/referee.py:687-697 | over every run transcript and file only grow and watermarks never go back, also through parallel stages |
| SessionSteps.CommitLedger | agent_collab/referee.py:488-522 | a commit moves the span's choice into the live ledger and, by its boundary event, into the derived one alike, or into neither |
| SessionSteps.EmitLedger | agent_collab/referee.py:591-661 | an event of a runner, also of one given up, touches no other agent's pending answer |
| LiveSession.TrackedInputQueue.PutNowait | agent_collab/daemon.py:297-299 | the item goes last and the unfinished counter grows by one |
| LiveSession.TrackedInputQueue.TaskDone | agent_collab/daemon.py:294-306 | the counter drops by one, never below zero, no item is touched, and the session of the hook has a notification pending |
| LiveSession.ManagedSession.RecordTurnOutcome | agent_collab/daemon.py:1447-1464 | refuses exactly a turn that already has an outcome; otherwise outcome and boundary event become visible together |
| LiveSession.ManagedSession.SetStatusNow | agent_collab/daemon.py:1555-1586 | the new status, failure and end time, nothing of it once a terminal status is set; says whether the session has the requested status |
| LiveSession.Referee.Emit | agent_collab/referee.py:414-421 | the transcript grows first; a closed log then raises before file and daemon see the event, and otherwise all three have it and the cursor is after it |
| LiveSession.Referee.EmitFromRunner | agent_collab/referee.py:591-597 | whatever a runner emits, also after its turn was given up, is attributed to the turn's own agent; it becomes the newest event exactly while the log is open |
| LiveSession.Referee.CommitOutcome | agent_collab/referee.py:488-522 | publishes one more outcome exactly where the record constructor accepts it, and otherwise changes neither outcomes nor transcript; neither duplicate check can fire, and the reported answers stay those the events give |
| LiveSession.Referee.BuildTurnPrompt | agent_collab/referee.py:390-412 | advances the watermark to the snapshot and gives a continuing conversation exactly the delta |
| LiveSession.Referee.PostMessage | agent_collab/daemon.py:1027-1065 | accepts exactly what the protocol accepts; an accepted post is the newest event, its cursor after it, and the newest in the queue; a refused one changes nothing |
| LiveSession.Referee.TakeNextInput | agent_collab/referee.py:821-839 | takes the oldest post if there is one; an unrouted one is consumed without a turn, a routed one is in process with a new turn of the agent it is routed to |
| LiveSession.Referee.FinishTurn | agent_collab/referee.py:573-661 | the run leaves exactly if a stop was asked for or the turn did not complete, as broken where its record was refused; otherwise it is at the next stage, or the directed post is consumed |
| LiveSession.Referee.DecideIdleClose | agent_collab/referee.py:853-871 | once the close is decided no post can be accepted, and of the accepted ones all are consumed but those still in the queue |
| LiveSession.Referee.ArbitrateTurn | agent_collab/referee.py:573-661 | fixes the outcome and, for a completed turn only, the answer that its span gives, found by the loop |
| LiveSession.Referee.StartPlannedTurn | agent_collab/referee.py:1016-1094 | one more turn, of the stage's agent and in flight, whose watermark is the end of the transcript |
| LiveSession.Referee.StartParallelStage | agent_collab/referee.py:678-720 | one new turn for each member, numbered in member order before any starts |
| LiveSession.Referee.FinishParallelStage | agent_collab/referee.py:733-773 | the stage goes on exactly if no stop was asked for, no record was refused and some member completed with a usable message; otherwise the run leaves |
| LiveSession.Referee.AnnounceAwaitingInput | agent_collab/referee.py:841-852 | the session accepts posts as long as it has its appender, and counts as settled exactly if no post is unfinished |
| LiveSession.Referee.RunPlannedTurn | agent_collab/referee.py:573-661 | a planned turn from start to finish, with whatever its runner emits: back at the stages with one more published outcome, or on the way out, which it is whenever the outcome is not completed |
| LiveSession.Referee.ConcludeRun | agent_collab/daemon.py:1399-1430 | the status becomes terminal unless a stop will make it so, an earlier terminal one stays, and a failure exists exactly if it is failed |
| LiveSession.Referee.BuildResultNow | agent_collab/daemon.py:1227-1257 | a settled live result comes from a session with nothing queued, in process, active or open and carries the answers its events give; a heartbeat carries none |
| LiveSession.ContinuationDelta | agent_collab/referee.py:368-379 | the loop yields exactly the visible part of the transcript from the watermark |
| LiveSession.CommitIsReady | agent_collab/daemon.py:1447-1464 | in every state a legal run leads to, a commit finds an open log, no outcome of its turn and a named agent, and watermarks in range |
| LiveSession.ArbitratedIsReady | agent_collab/referee.py:488-522 | wherever the record constructor accepts the turn, all that publishing relies on holds, and the constructor changes nothing |
| Answers.FindTurnAnswer | agent_collab/referee.py:443-474 | the loop finds the span's answer: its last final message, else its last message |
| Answers.ScanMeaning | agent_collab/referee.py:443-474 | what final-over-last means, by positions: no later usable, or final, message exists in the span |
| Answers.DeriveRestoredAnswers | agent_collab/daemon.py:1276-1320 | the single pass over the events computes the derived ledger |
| Answers.PendingIsOpenSpan | agent_collab/daemon.py:1276-1320 | the pass's pending slot for an agent is the scan of that agent's open span |
| Answers.DerivedIsLatestCompleted | agent_collab/daemon.py:1276-1320 | the derived ledger says of each agent the answer of its latest completed turn that had one |
| Outcomes.FailureOfRecord | agent_collab/outcomes.py:279-293 | a well-formed record becomes a failure exactly when its turn did not complete, field by field |
| Outcomes.CompletedExactlyWhen | agent_collab/outcomes.py:356-402 | evidence resolves to completed on exactly two grounds, and never against an exception or a nonzero exit |
| Outcomes.ResolveIgnoresOrder | agent_collab/outcomes.py:356-402 | order and repetition of the evidence do not matter |
| Outcomes.TerminalEvidenceAccumulator.Extend | agent_collab/outcomes.py:362-368 | adding one by one leaves the evidence without repetitions, in first-seen order |
| Outcomes.TerminalEvidenceAccumulator.ResolveNow | agent_collab/outcomes.py:356-402 | what was accumulated always resolves, to completed exactly on the two grounds |
| Outcomes.NewRecord | agent_collab/outcomes.py:200-256 | only well-formed records are built; with a well-formed outcome exactly a workflow-owned turn id, a positive stage, an identifier and a registered backend are accepted, and the outcome is kept as it is |
| Outcomes.TurnIdInjective | agent_collab/referee.py:476-479 | different turn numbers give different turn ids |
| Wakeup.StepKept | agent_collab/daemon.py:1588-1611 | every step keeps: one scheduled task exactly while the flag is set, one holder of the lock, and the accounting of owed and coming notifications |
| Wakeup.LosesExactlyWhen | agent_collab/daemon.py:1555-1611 | a step leaves a waiter that could return with nothing coming if and only if it cancels a setter that owes the only notification there is while a parked waiter has missed it |
| Wakeup.NoLostWakeup | agent_collab/daemon.py:1588-1611 | a run ever leaves such a waiter if and only if it has such a step, whatever else is cancelled in it; a burst schedules at most one task |
| Wakeup.InternalStepsDecrease | agent_collab/daemon.py:1161-1211 | the event loop's own steps change no fact and always come closer to rest |
| Wakeup.RestServesEveryWaiter | agent_collab/daemon.py:1161-1211 | at rest every waiter has returned or still has to wait exactly if none was left behind, so in every run without such a step |
| Wakeup.CancelledSetterLosesWakeup | agent_collab/daemon.py:1555-1579 | a concrete run in which a cancelled setter leaves a waiter parked on a stopped session |
| Cursor.EventBatchFromSnapshot | agent_collab/daemon.py:1910-1939 | the loop gives the page: every scanned event that matches, ids stamped where position does not imply them |
| Cursor.PageIsExact | agent_collab/daemon.py:1910-1939 | a client reads from a page exactly the matching events with their absolute ids, and the cursor strictly advances when anything is unscanned |
| Cursor.MatchingSound | agent_collab/daemon.py:1910-1939 | what is found lies in the range, matches the filter and comes in order |
| Cursor.MatchingComplete | agent_collab/daemon.py:1910-1939 | nothing in the range that matches is missed |
| Cursor.FollowIsExact | agent_collab/daemon.py:1141-1183 | for any limits of at least one, any filter and any appends, the pages of a follower together are the matching events between its first and last cursor |
| Cursor.FollowCatchesUp | agent_collab/daemon.py:1666-1675 | a filter never stalls a follower: as many polls as events are left reach the end |
| EventFile.LoadEventsFromJsonl | agent_collab/daemon.py:1891-1907 | the loop reads the events that the file's lines decode to |
| EventFile.BrokenEventsAreLost | agent_collab/logging.py:32-34 | of the events, exactly those are found again whose line holds no character the reader takes for a line break, whatever else the fragments of the broken lines read as |
| EventFile.ReadBackExactlyWhen | agent_collab/daemon.py:1891-1907 | events and ids are read back unchanged if and only if no line holds such a character |
| Utf8.RoundTrip | agent_collab/daemon.py:2076-2082 | decoding undoes encoding (section 3 of RFC 3629) |
| Utf8.KeptIsLongestFit | agent_collab/daemon.py:2076-2082 | the kept prefix is the longest that fits, with at most three bytes unused |
| Utf8.TruncateRespectsCharacters | agent_collab/daemon.py:2076-2082 | fitting text is unchanged; otherwise the longest fitting character prefix and a notice whose number is the encoded length beyond the limit |
| Retention.SelectExpiredSessions | agent_collab/retention.py:105-151 | the loops compute the selection; a negative keep count is refused |
| Retention.SortOrders | agent_collab/retention.py:142-142 | the newest-first sort orders, and neither loses nor adds a candidate |
| Retention.ExpiredIsTail | agent_collab/retention.py:142-150 | with unique ids, what expires is the sorted list from the larger of keep count and number newer than the cutoff; what is reported kept lies between the two |
| Retention.NewestSurvive | agent_collab/retention.py:113-122 | at least the keep count survives where there are that many, and each survivor is ahead of every expired one |
| Retention.ReselectIsRest | agent_collab/retention.py:105-151 | selecting again once a part is gone, perhaps after a restart that ended live sessions: what it gives, and exactly when it is the rest |
| Retention.ReselectExpiresNothing | agent_collab/retention.py:105-151 | selecting again over the survivors expires nothing |
| Prune.EveryPathClassified | agent_collab/retention.py:178-204 | a path is deletable exactly when it is the managed path of a valid id; every other recorded path is reported |
| Prune.OneOwner | agent_collab/retention.py:196-203 | no two sessions own the same managed file |
| Prune.Disk.ExecuteTranscriptUnlinks | agent_collab/daemon.py:1843-1888 | files and reports after the loops, for every failure at every path |
| Prune.SweepRemoves | agent_collab/daemon.py:1861-1887 | exactly the reported files are gone, each reported once, all regular and planned, and the bytes reported are their sizes |
| Prune.SweepLeavesNothing | agent_collab/daemon.py:1861-1887 | without a reported failure each planned path is absent or reported as preserved |
| Prune.PreviewIsExact | agent_collab/daemon.py:1843-1856 | a preview reports what applying would do where no unlinking fails, and changes nothing |
| Prune.SessionIndex.RemoveMany | agent_collab/session_index.py:46-58 | one rewrite removes exactly the given ids or, failing, nothing; without a known id there is no rewrite |
| Prune.SessionIndex.Upsert | agent_collab/session_index.py:38-44 | replaces one record; an empty id or a failing write changes nothing |
| PruneRuns.SessionManager.PruneSessions | agent_collab/daemon.py:872-1011 | a preview changes nothing; an applied run changes files, index and registry exactly as the run's description says, records leaving the registry only after the index; the result tells pruned, failed and reclaimed bytes |
| PruneRuns.OnlyExpiredLeave | agent_collab/daemon.py:923-945 | only selected terminal sessions whose task is done are removed; no live one ever |
| PruneRuns.RecordsLeaveClean | agent_collab/daemon.py:950-985 | a record leaves the index only when each recorded transcript is absent or was reported |
| PruneRuns.OnlyOwnFilesGo | agent_collab/daemon.py:1843-1888 | however a run ends or crashes, a file that is gone was a regular file owned by one selected session and by no other |
| PruneRuns.PruneConverges | agent_collab/daemon.py:880-890 | however a run ends, selecting again gives what was selected and not yet removed, if and only if no session was live at a restart in between or the keep count is not affected |
| PruneRuns.RestartExpiresMore | agent_collab/daemon.py:880-890 | two sessions, a crash and a restart after which a session expires that the first selection had kept |
| Units.SnapshotSparesOthers | agent_collab/daemon_autostart_systemd.py:2074-2097 | outside a takeover aimed at it, another home's recovery is not authorised, so whatever respects the snapshot leaves it as it is |
| Units.Units.QuarantineUnit | agent_collab/daemon_autostart_systemd.py:1974-2022 | under any faults and interference: a slot the snapshot does not permit never changes; a returned slot holds the displaced file with the canonical one absent; the file leaves disk only by the last resort after both slots refused |
| Units.Units.StopManagedAndReap | agent_collab/daemon_autostart_systemd.py:1527-1547 | success means the service is not active |
| Autostart.CleanupFailedCandidate | agent_collab/daemon_autostart_systemd.py:1883-1908 | success means disabled and stopped, files untouched |
| Autostart.RollbackFailedEnable | agent_collab/daemon_autostart_systemd.py:1836-1880 | success means definition, enabled bit and active bit as they were found |
| Autostart.Attempt | agent_collab/daemon_autostart_systemd.py:593-645 | how far the steps got, with unpermitted slots unchanged and the displaced definition kept unless the last resort was needed |
| Autostart.RecoverFailedEnable | agent_collab/daemon_autostart_systemd.py:646-704 | no recovery error means everything is back; the old bytes stay on disk either way unless already lost |
| Autostart.PostCommitCleanup | agent_collab/daemon_autostart_systemd.py:2025-2071 | removes at most the displaced slot and permitted recoveries |
| Autostart.EnableAutostart | agent_collab/daemon_autostart_systemd.py:593-714 | refused: nothing changed; enabled: new definition, enabled and active; failed without recovery error: an existing registration is exactly as before, whichever step failed, and the detached daemon is other than before exactly if its stop had failed halfway; another home's recovery stays throughout unless taken over |
| Autostart.HalfStoppedRun | agent_collab/daemon_autostart_systemd.py:624-626 | a concrete world in which enabling fails without a recovery error and the detached daemon stays gone |
| AutostartInstall.QuiesceForInstall | agent_collab/daemon_autostart_systemd.py:1215-1260 | the snapshot is the prior bits, the login barrier is off and the service stopped, or it is refused unchanged |
| AutostartInstall.EstablishDisabledStopped | agent_collab/daemon_autostart_systemd.py:1563-1577 | anything but a plain error means disabled and stopped; with a cause it never returns normally |
| AutostartInstall.RestoreAfterInstall | agent_collab/daemon_autostart_systemd.py:1263-1348 | for every snapshot and mutation outcome: returning means installed, enabled and running as in the snapshot; a safe error means disabled and stopped |
| AutostartInstall.QuiesceThenRestore | agent_collab/daemon_autostart_systemd.py:1215-1364 | around an installation that may rewrite the definition the registration comes back as it was, or an error says otherwise |
| AutostartLaunchd.QuarantineDefinition | agent_collab/daemon_autostart_launchd.py:1776-1831 | as for systemd; lost bytes are always an error |
| AutostartLaunchd.PreservePriorBytesNonloadably | agent_collab/daemon_autostart_launchd.py:2092-2146 | a returned slot holds the prior bytes, the canonical file is absent, and no slot but the chosen one changed |
| AutostartLaunchd.PreserveIgnoresSnapshotExactlyWhen | agent_collab/daemon_autostart_launchd.py:2128-2142 | an unpermitted slot is overwritten exactly when this home's own unnamed recovery comes before every permitted slot |
| AutostartLaunchd.UnsnapshottedRecoveryOverwritten | agent_collab/daemon_autostart_launchd.py:2128-2142 | a recovery that appeared after the snapshot is overwritten |
| ShellWords.SpecifiersUndone | agent_collab/daemon_autostart_systemd.py:2278-2285 | the parser's two replacements undo percent and dollar doubling for every mixture of both |
| ShellWords.LexEscaped | agent_collab/daemon_autostart_systemd.py:2278-2285 | inside double quotes POSIX lexing reads escaped text back (section 2.2.3 of the POSIX.1-2017 Shell Command Language) |
| ShellWords.SplitQuotedWords | agent_collab/daemon_autostart_systemd.py:180-192 | a line of quoted words is read as exactly those words |
| ShellWords.OpenQuoteFails | agent_collab/daemon_autostart_systemd.py:180-192 | text cut inside a quotation is never read |
| UnitCodec.ParseManagedCommand | agent_collab/daemon_service.py:147-195 | the loop over flags and values computes the command or the first problem |
| UnitCodec.ParseSystemdUnit | agent_collab/daemon_autostart_systemd.py:172-245 | the loops over lines compute the identity or the first problem |
| UnitRoundTrip.CommandReadBack | agent_collab/daemon_service.py:147-195 | the rendered argument list parses to the interpreter, manager, host, port and working directory |
| UnitRoundTrip.RoundTrip | agent_collab/daemon_autostart_systemd.py:117-245 | a rendered unit parses to exactly what it was rendered from if and only if no value holds a line break, and otherwise not at all |
| TomlTables.DocumentHoldsExactlyWhen | agent_collab/config.py:1479-1549 | in every accepted document each assigned path, by its entered names, holds exactly its own line's value if and only if no later line reaches into an inline table |
| TomlTables.DocumentHoldsItsLines | agent_collab/config.py:1479-1549 | then no two assigned paths overlap, and nothing else is in the tree |
| TomlTables.TrimmedDocumentHolds | agent_collab/config.py:1490-1507 | headers whose parts have no outer blanks never reach into an inline table |
| TomlTables.KeyChangesExactly | agent_collab/config.py:1573-1592 | a key line changes a table that is already there exactly when the table, by its entered names, lies above the key |
| TomlTables.HeaderChangesExactly | agent_collab/config.py:1508-1517 | a header changes a table that is already there exactly when the table lies on its entered path and the last table of that path is new |
| TomlTables.UntrimmedHeaderExtendsInlineTable | agent_collab/config.py:1490-1517 | an accepted document of three lines in which a key below a quoted header part with outer blanks extends an earlier inline table |
| TomlTables.UntrimmedHeaderAloneExtends | agent_collab/config.py:1490-1517 | an accepted document of two lines in which the header alone does |
| TomlTables.SetDottedAside | agent_collab/config.py:1573-1585 | setting a dotted key leaves every path beside it unchanged |
| TomlTables.OpenTablesMeaning | agent_collab/config.py:1508-1517 | entering a header's tables leaves every path beside and below the header's as it was, and what is on the header's path is a table, before where it was there and after; a table there may gain one |
| TomlSyntax.StripComment | agent_collab/config.py:1595-1610 | the longest prefix of the line that holds no hash sign outside quotes |
| TomlSyntax.SplitTopLevel | agent_collab/config.py:1653-1672 | the loop splits at delimiters outside quotes and drops blank items |
| TomlSyntax.QuotedHeaderReadBack | agent_collab/config.py:1552-1570 | a header of quoted parts is split between them and never inside one |
| TomlSyntax.NumberCrashesExactlyWhen | agent_collab/config.py:1631-1632 | a value raises an uncaught error exactly when minus signs before it hide a digit string with a second minus sign, a digit that is not decimal, or too many digits |
| TomlTables.UncaughtExactlyWhen | agent_collab/config.py:1479-1549 | a document raises the uncaught error exactly when some line does and all lines before it are accepted |
| TomlSyntax.FillTables | agent_collab/config.py:1479-1549 | the parser's loop with its three sets computes the tables, or stops at the first bad line with that line's kind of error |
| TomlSyntax.ParseTomlSubsetData | agent_collab/config.py:1479-1549 | the text of an accepted document holds each of its assignments exactly if no later line reaches into an inline table |

## Left out

- The HTTP, MCP and command-line layers, DTO copying, provider backends, sandbox planning, model discovery and caches.
- Clocks, sockets, `/proc`, `systemctl` and `launchctl` output: nondeterministic reads or operations that may fail.
- JSON: writing and reading a line are parameters; `EventFile` assumes only that they are inverse on whole lines and that a fragment of a broken line, which may read as an event such as an empty object, does not read as one of the events that were written.
- Wording of events, prompts and errors; texts are opaque apart from blank or not, and error kinds stand for messages in the unit parser.
- The contents of the tables of evidence and stop-reason codes: a value carries whether the tables list it; turn codes and backends are enumerated.
- Event raw payloads, except the marks for final messages, provider-session bookkeeping and turn outcomes.
- Failing writes of the session log and of the index during a run; a failing index rewrite while pruning is modelled.
- The bounded closing of runners and the draining of their reapers, and with them any claim that every turn gets an outcome: a turn is committed at most once.
- A cancellation in the announcement of the waiting state leaves the accepting flag up until the stop is published; this is modelled (an abort from `Announcing`), not repaired.
- SessionTheorems.LedgersAgree: takes the file as a sequence of events; what the file's text gives back after a restart is `EventFile.ReadBackExactlyWhen`.
- PruneRuns.PruneConverges: takes index and registry to agree when the run begins, and other processes not to touch the transcript files meanwhile.
- Prune.EveryPathClassified: compares paths as texts, without the normalisation of repeated separators that path objects do.
- UnitRoundTrip.RoundTrip: takes paths as already absolute and resolved, so that resolving them again changes nothing.
- UnitCodec.ParseManagedCommand: reads port numbers in ASCII digits, with sign, blanks and underscores as Python allows, but not in other Unicode digits.
- UnitCodec.ParseSystemdUnit: compares homes as texts, without expanding and resolving them.
- Units.Units.StopManagedAndReap: the proof that the old process is gone is one operation that may fail.
- Units.Units.QuarantineUnit: identity of a file is one inode number, and interference is a replacement just before the rename.
- Autostart.EnableAutostart: what an inspection finds out about the running process is a parameter; endpoint reservation is one operation that may fail before anything changes.
- Disabling autostart, starting, stopping and restarting on request, and launchd's own enable, quiesce and restore: the same steps as the systemd transactions over other commands.
- TomlSyntax.FillTables: how a quoted literal is evaluated, which characters are digits and how many digits the interpreter converts are parameters, and tables are values, so that two names for one nested table cannot occur.
- Workflow validation: that members of a parallel stage differ, and that a parallel stage is alone and not interactive, is assumed of every plan.
- Configuration merging, option normalisation and recommendations, which would add easy members only.
