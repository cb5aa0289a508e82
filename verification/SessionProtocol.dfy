/**
 * The session run protocol: the referee's control flow (agent_collab/referee.py) and the
 * daemon's record of the same session (agent_collab/daemon.py) as one state, changed by
 * atomic actions. An action is what runs between two real suspension points of the event
 * loop; the emit lock is never held across one, so an emit and a commit are whole.
 */
module SessionProtocol {
  import opened Common
  import opened Outcomes
  import opened Events
  import opened Answers

  // ----- the workflow

  /** `members` is the whole workflow, `stages` the part that the turn limit leaves. */
  datatype Plan = Plan(stages: seq<seq<AgentId>>, members: seq<AgentId>, backends: map<AgentId, Backend>, interactive: bool)

  predicate DistinctAgents(l: seq<AgentId>) { forall i, j :: 0 <= i < j < |l| ==> l[i] != l[j] }

  /** What workflow validation and start validation guarantee. */
  predicate WellFormedPlan(p: Plan) {
    && (forall m :: m in p.members ==> m != "" && m in p.backends)
    && (forall i, k :: 0 <= i < |p.stages| && 0 <= k < |p.stages[i]| ==> p.stages[i][k] in p.members)
    && (forall i :: 0 <= i < |p.stages| ==> p.stages[i] != [])
    && (|| (forall i :: 0 <= i < |p.stages| ==> |p.stages[i]| == 1)
        || (|p.stages| == 1 && !p.interactive && DistinctAgents(p.stages[0])))
  }

  /** The single agent of a solo workflow. */
  function Sole(p: Plan): Option<AgentId> {
    if p.members != [] && forall m :: m in p.members ==> m == p.members[0] then Some(p.members[0]) else None
  }

  // ----- the state

  datatype Input = Input(text: string, target: Option<AgentId>)

  /** The agent a post is routed to, if any. */
  function Route(p: Plan, i: Input): Option<AgentId> { if i.target.Some? then i.target else Sole(p) }

  datatype Phase =
    | Allocated
    | InFlight
    | Arbitrated(outcome: TurnOutcome, answer: Option<Answer>)
    | Settled(outcome: TurnOutcome, answer: Option<Answer>)
    | Dropped

  datatype Turn = Turn(agent: AgentId, stageIndex: int, span: nat, directed: bool, phase: Phase)

  datatype Back = ToStages(next: nat) | ToWaiting

  datatype Ending = Normal | CancelledRun | FailedRun(failure: SessionFailure) | BrokenRun

  /** Where the referee's coroutine stands. */
  datatype Pc =
    | Opening
    | Between(next: nat)
    | Planned(stage: nat)
    | Parallel(stage: nat, first: nat)
    | Directed(back: Back)
    | Announcing
    | Waiting
    | Closing
    | Unwinding(ending: Ending)
    | Ended
    | Restored

  /** What a provider conversation was sent by continuation prompts since position `start`. */
  datatype Sent = Sent(start: nat, delivered: seq<Event>)

  /** One sequence of events, kept three times: by the referee, in the log file and by the daemon. */
  datatype Log = Log(transcript: seq<Event>, jsonl: seq<Event>, events: seq<Event>, open: bool)

  /** Turns in the order of their numbers, which of them were committed in which order, and what was published of them. */
  datatype Work = Work(turns: seq<Turn>, committed: seq<nat>, outcomes: seq<TurnRecord>, ledger: seq<Answer>)

  datatype Prompts = Prompts(watermarks: map<AgentId, nat>, sent: map<AgentId, Sent>)

  /**
   * The input queue with its public counter and the input in process; then its history:
   * posts accepted, posts consumed, a post given up by a failing or stopped run, and the
   * turns that answered routed posts.
   */
  datatype Inbox = Inbox(
    queue: seq<Input>, unfinished: nat, current: Option<Input>,
    posted: seq<Input>, consumed: seq<Input>, dropped: seq<Input>, answeredBy: seq<nat>)

  datatype Life = Life(status: Status, failure: Option<SessionFailure>, endedAt: Option<string>, stopRequested: bool)

  datatype Session = Session(
    plan: Plan, pc: Pc, log: Log, work: Work, prompts: Prompts, inbox: Inbox, life: Life,
    appender: bool, turnActive: bool, accepting: bool)

  function Init(p: Plan): Session {
    Session(p, Opening, Log([], [], [], false), Work([], [], [], []), Prompts(map[], map[]),
            Inbox([], 0, None, [], [], [], []), Life(Running, None, None, false), false, false, false)
  }

  // ----- building blocks

  /** One event into the transcript, the open log and the daemon's list. A closed log raises before the daemon sees it. */
  function Append(l: Log, e: Event): Log {
    if l.open then Log(l.transcript + [e], l.jsonl + [e], l.events + [e], true)
    else l.(transcript := l.transcript + [e])
  }

  function Emit(s: Session, e: Event): Session { s.(log := Append(s.log, e)) }

  predicate Hidden(e: Event, a: AgentId) { e.agent == Some(a) || e.providerSession }

  /** The part of the transcript between two positions that a continuation prompt shows to an agent. */
  function Visible(t: seq<Event>, from: nat, to: nat, a: AgentId): seq<Event>
    requires to <= |t|
  {
    if to <= from then []
    else Visible(t, from, to - 1, a) + (if Hidden(t[to - 1], a) then [] else [t[to - 1]])
  }

  function Watermark(p: Prompts, a: AgentId): nat { if a in p.watermarks then p.watermarks[a] else 0 }

  function SentTo(p: Prompts, a: AgentId): Sent { if a in p.sent then p.sent[a] else Sent(0, []) }

  /** Build a prompt for one agent: the watermark moves to the snapshot whether or not the prompt continues a conversation. */
  function BuildPrompt(p: Prompts, t: seq<Event>, a: AgentId, continues: bool): Prompts {
    var before := SentTo(p, a);
    var now := if continues then Sent(before.start, before.delivered + Visible(t, Watermark(p, a), |t|, a))
               else Sent(|t|, []);
    Prompts(p.watermarks[a := |t|], p.sent[a := now])
  }

  /** A shared prompt: every member's watermark moves to the one snapshot. */
  function MarkAll(p: Prompts, t: seq<Event>, members: seq<AgentId>): Prompts {
    if members == [] then p
    else BuildPrompt(MarkAll(p, t, members[..|members| - 1]), t, members[|members| - 1], false)
  }

  function BeginTurn(s: Session, a: AgentId, stageIndex: int, directed: bool, continues: bool): Session {
    s.(prompts := BuildPrompt(s.prompts, s.log.transcript, a, continues),
       work := s.work.(turns := s.work.turns + [Turn(a, stageIndex, |s.log.transcript|, directed, InFlight)]),
       turnActive := true)
  }

  function AllocateAll(members: seq<AgentId>, stageIndex: int): (r: seq<Turn>)
    ensures |r| == |members|
    ensures forall k :: 0 <= k < |r| ==> r[k] == Turn(members[k], stageIndex, 0, false, Allocated)
  {
    seq(|members|, k requires 0 <= k < |members| => Turn(members[k], stageIndex, 0, false, Allocated))
  }

  function RecordOf(p: Plan, t: Turn, i: nat): TurnRecord
    requires t.agent in p.backends && (t.phase.Arbitrated? || t.phase.Settled?)
  {
    TurnRecord(TurnId(i + 1), t.stageIndex, t.agent, p.backends[t.agent], t.phase.outcome)
  }

  /** The record constructor accepts the turn. A persona's configured name may be no identifier, and then it does not. */
  predicate Recordable(p: Plan, t: Turn, i: nat)
    requires t.agent in p.backends && (t.phase.Arbitrated? || t.phase.Settled?)
  {
    NewRecord(TurnId(i + 1), t.stageIndex, t.agent, p.backends[t.agent], t.phase.outcome).Ok?
  }

  predicate CompletedTurn(t: Turn) { t.phase.Settled? && t.phase.outcome.kind.Completed? }

  /** A runner may still emit while its turn is open, or after the referee gave up on it. */
  predicate MayEmit(t: Turn) {
    match t.phase
    case Allocated => false
    case InFlight => true
    case Arbitrated(o, _) => !o.kind.Completed?
    case Settled(o, _) => !o.kind.Completed?
    case Dropped => true
  }

  /** `_set_status` together with `_transition_state`: a terminal status is final. */
  function SetStatus(l: Life, status: Status, failure: Option<SessionFailure>, now: string): Life {
    if Terminal(l.status) then l
    else
      Life(status, if failure.Some? then failure else l.failure,
           if Terminal(status) then Some(now) else l.endedAt, l.stopRequested)
  }

  function GiveUp(t: Turn): Turn {
    if t.phase.Allocated? || t.phase.InFlight? then t.(phase := Dropped) else t
  }

  function GiveUpAll(turns: seq<Turn>): (r: seq<Turn>)
    ensures |r| == |turns|
    ensures forall k :: 0 <= k < |r| ==> r[k] == GiveUp(turns[k])
  {
    seq(|turns|, k requires 0 <= k < |turns| => GiveUp(turns[k]))
  }

  function OneLess(n: nat): nat { if n > 0 then n - 1 else 0 }

  /** The finalisers a coroutine passes through on its way out, up to the appender's removal. */
  function Unwind(s: Session, ending: Ending): Session {
    s.(pc := Unwinding(ending), appender := false, accepting := s.accepting && s.pc.Announcing?, inbox := Abandoned(s.inbox))
  }

  /** The input in process, if any, is given up and counted as done. */
  function Abandoned(box: Inbox): Inbox {
    if box.current.None? then box
    else box.(current := None, dropped := box.dropped + [box.current.value], unfinished := OneLess(box.unfinished))
  }

  /** When a note of the referee is written, and its wording, which nothing depends on. */
  datatype Stamp = Stamp(time: string, text: string)

  function NoteOf(n: Stamp, agent: Option<AgentId>): Event { Note(n.time, n.text, agent) }

  // ----- the actions

  /** Posts and the interactive loop that consumes them. */
  datatype InputAction =
    | Post(time: string, human: bool, input: Input)
    | TakeInput(note: Stamp, continues: bool)
    | Announced
    | IdleClose
    | CloseSession(note: Stamp)

  /** The planned stages. */
  datatype StageAction =
    | Open(note: Stamp, task: string)
    | StartPlanned(note: Stamp, continues: bool)
    | StartParallel(note: Stamp)
    | FinishTurn
    | FinishParallel(note: Stamp)
    | FinishStages(note: Stamp)

  /** What happens inside turns, those of a parallel stage interleaved. */
  datatype TurnAction =
    | StartMember(turn: nat)
    | RunnerEmits(turn: nat, event: Event)
    | Arbitrate(turn: nat, outcome: TurnOutcome)
    | Commit(turn: nat, note: Stamp)
    | Refuse(turn: nat)

  /** Stop, cancellation, unexpected failure, the end of the run and a daemon restart. */
  datatype ExitAction =
    | Abort(broken: bool, clears: bool)
    | CloseLog
    | Conclude(time: string)
    | RequestStop
    | PublishStop(time: string)
    | Restart(time: string)

  datatype Action = OnInput(i: InputAction) | OnStage(g: StageAction) | OnTurn(t: TurnAction) | OnExit(e: ExitAction)

  predicate InRun(pc: Pc) { !pc.Unwinding? && !pc.Ended? && !pc.Restored? }

  /** The checks of `post_message`: both validations and the registered appender. */
  predicate PostAccepted(s: Session) {
    && !s.pc.Restored? && Live(s.life.status) && s.plan.interactive
    && !(s.life.status.AwaitingInput? && !s.accepting)
    && s.appender
  }

  predicate HasTurn(s: Session, i: nat) { i < |s.work.turns| }

  predicate InputEnabled(s: Session, a: InputAction) {
    match a
    case Post(_, _, input) => PostAccepted(s) && KnownTarget(s.plan, input)
    case TakeInput(_, _) => s.inbox.queue != [] && s.plan.interactive && (s.pc.Between? || s.pc.Waiting?)
    case Announced => s.pc.Announcing?
    case IdleClose => s.pc.Waiting?
    case CloseSession(_) => s.pc.Closing?
  }

  predicate StageEnabled(s: Session, a: StageAction) {
    match a
    case Open(_, _) => s.pc.Opening?
    case StartPlanned(_, _) =>
      s.pc.Between? && s.pc.next < |s.plan.stages| && |s.plan.stages[s.pc.next]| == 1 && s.inbox.queue == []
    case StartParallel(_) =>
      s.pc.Between? && s.pc.next < |s.plan.stages| && |s.plan.stages[s.pc.next]| > 1 && s.inbox.queue == []
    case FinishTurn => (s.pc.Planned? || s.pc.Directed?) && LastFinished(s.plan, s.work.turns)
    case FinishParallel(_) =>
      s.pc.Parallel? && forall i :: s.pc.first <= i < |s.work.turns| ==> Finished(s.work.turns[i])
    case FinishStages(_) => s.pc.Between? && s.pc.next >= |s.plan.stages| && s.inbox.queue == []
  }

  predicate TurnEnabled(s: Session, a: TurnAction) {
    match a
    case StartMember(i) => s.pc.Parallel? && HasTurn(s, i) && s.work.turns[i].phase.Allocated?
    case RunnerEmits(i, e) =>
      !s.pc.Restored? && HasTurn(s, i) && MayEmit(s.work.turns[i])
      && e.agent == Some(s.work.turns[i].agent) && e.boundary.None?
    case Arbitrate(i, o) => InRun(s.pc) && HasTurn(s, i) && s.work.turns[i].phase.InFlight? && WellFormedOutcome(o)
    case Commit(i, _) => InRun(s.pc) && HasTurn(s, i) && Committable(s.plan, s.work.turns[i], i)
    case Refuse(i) => InRun(s.pc) && HasTurn(s, i) && Refusable(s.plan, s.work.turns[i], i)
  }

  predicate ExitEnabled(s: Session, a: ExitAction) {
    match a
    case Abort(_, _) => InRun(s.pc) && forall i :: 0 <= i < |s.work.turns| ==> !s.work.turns[i].phase.Arbitrated?
    case CloseLog => s.pc.Unwinding? && s.log.open
    case Conclude(_) => s.pc.Unwinding? && !s.log.open
    case RequestStop => !s.pc.Ended? && !s.pc.Restored? && !Terminal(s.life.status)
    case PublishStop(_) => s.pc.Ended?
    case Restart(_) => true
  }

  predicate KnownTarget(p: Plan, i: Input) { i.target.Some? ==> i.target.value in p.members }

  predicate Committable(p: Plan, t: Turn, i: nat) {
    t.phase.Arbitrated? && t.agent in p.backends && Recordable(p, t, i)
  }

  predicate Refusable(p: Plan, t: Turn, i: nat) {
    t.phase.Arbitrated? && t.agent in p.backends && !Recordable(p, t, i)
  }

  /** A turn that is over: committed, or given up because its record was refused. */
  predicate Finished(t: Turn) { t.phase.Settled? || t.phase.Dropped? }

  predicate LastFinished(p: Plan, turns: seq<Turn>) {
    turns != [] && Finished(turns[|turns| - 1]) && turns[|turns| - 1].agent in p.backends
  }

  function TaskEvent(time: string, task: string): Event { Event(time, Human, Message, task, None, false, false, None) }

  function Opened(s: Session, note: Stamp, task: string): Session {
    var t := Emit(s.(log := s.log.(open := true)), TaskEvent(note.time, task));
    Emit(t, NoteOf(note, None)).(pc := Between(0), appender := s.plan.interactive)
  }

  function PostEvent(time: string, human: bool, input: Input): Event {
    Event(time, if human then Human else RefereeNote, Message, input.text, None, false, false, None)
  }

  function Enqueue(b: Inbox, input: Input): Inbox {
    b.(queue := b.queue + [input], unfinished := b.unfinished + 1, posted := b.posted + [input])
  }

  function Posted(s: Session, time: string, human: bool, input: Input): Session {
    Emit(s, PostEvent(time, human, input)).(inbox := Enqueue(s.inbox, input))
  }

  function Skipped(b: Inbox): Inbox
    requires b.queue != []
  {
    b.(queue := b.queue[1..], consumed := b.consumed + [b.queue[0]], unfinished := OneLess(b.unfinished))
  }

  function Dequeued(b: Inbox): Inbox
    requires b.queue != []
  {
    b.(queue := b.queue[1..], current := Some(b.queue[0]))
  }

  /** A post that is not routed is consumed where it is taken; a routed one opens a directed turn. */
  function Taken(s: Session, note: Stamp, continues: bool): Session
    requires s.inbox.queue != [] && (s.pc.Between? || s.pc.Waiting?)
  {
    var route := Route(s.plan, s.inbox.queue[0]);
    if route.None? then s.(inbox := Skipped(s.inbox))
    else
      BeginTurn(Emit(s, NoteOf(note, route)), route.value, |s.work.turns| + 1, true, continues)
      .(pc := Directed(if s.pc.Waiting? then ToWaiting else ToStages(s.pc.next)), inbox := Dequeued(s.inbox))
  }

  function PlannedStarted(s: Session, note: Stamp, continues: bool): Session
    requires s.pc.Between? && s.pc.next < |s.plan.stages| && s.plan.stages[s.pc.next] != []
  {
    var a := s.plan.stages[s.pc.next][0];
    BeginTurn(Emit(s, NoteOf(note, Some(a))), a, s.pc.next + 1, false, continues).(pc := Planned(s.pc.next))
  }

  function ParallelStarted(s: Session, note: Stamp): Session
    requires s.pc.Between? && s.pc.next < |s.plan.stages|
  {
    var members := s.plan.stages[s.pc.next];
    var t := Emit(s, NoteOf(note, None));
    t.(prompts := MarkAll(s.prompts, t.log.transcript, members),
       work := s.work.(turns := s.work.turns + AllocateAll(members, s.pc.next + 1)),
       turnActive := true, pc := Parallel(s.pc.next, |s.work.turns|))
  }

  function MemberStarted(s: Session, i: nat): Session
    requires HasTurn(s, i)
  {
    var t := s.work.turns[i].(span := |s.log.transcript|, phase := InFlight);
    s.(work := s.work.(turns := s.work.turns[i := t]))
  }

  function TurnArbitrated(s: Session, i: nat, o: TurnOutcome): Session
    requires HasTurn(s, i)
  {
    var t := s.work.turns[i];
    var answer := if o.kind.Completed? then TurnAnswer(s.log.transcript, t.span, t.agent) else None;
    s.(work := s.work.(turns := s.work.turns[i := t.(phase := Arbitrated(o, answer))]))
  }

  /** The record constructor raises: nothing is committed, and the turn's coroutine fails. */
  function TurnRefused(s: Session, i: nat): Session
    requires HasTurn(s, i)
  {
    s.(work := s.work.(turns := s.work.turns[i := s.work.turns[i].(phase := Dropped)]))
  }

  function Settle(t: Turn): Turn
    requires t.phase.Arbitrated?
  {
    t.(phase := Settled(t.phase.outcome, t.phase.answer))
  }

  function CommitWork(p: Plan, w: Work, i: nat): Work
    requires i < |w.turns| && Committable(p, w.turns[i], i)
  {
    var answer := w.turns[i].phase.answer;
    Work(w.turns[i := Settle(w.turns[i])], w.committed + [i], w.outcomes + [RecordOf(p, w.turns[i], i)],
         if answer.Some? then Upsert(w.ledger, answer.value) else w.ledger)
  }

  function Committed(s: Session, i: nat, note: Stamp): Session
    requires HasTurn(s, i) && Committable(s.plan, s.work.turns[i], i)
  {
    Emit(s, Boundary(note.time, note.text, RecordOf(s.plan, s.work.turns[i], i))).(work := CommitWork(s.plan, s.work, i))
  }

  function Answered(b: Inbox, i: nat): Inbox {
    b.(current := None, unfinished := OneLess(b.unfinished), answeredBy := b.answeredBy + [i],
       consumed := b.consumed + (if b.current.Some? then [b.current.value] else []))
  }

  /** A directed turn completed: the post is consumed, and its loop goes on. */
  function DirectedFinished(s: Session): Session
    requires s.pc.Directed? && s.work.turns != []
  {
    s.(turnActive := false, inbox := Answered(s.inbox, |s.work.turns| - 1),
       pc := if s.pc.back.ToWaiting? then Waiting else Between(s.pc.back.next))
  }

  /** How the run ends with its last turn, if it does. */
  function EndingOf(s: Session): Option<Ending>
    requires LastFinished(s.plan, s.work.turns)
  {
    var i := |s.work.turns| - 1;
    if s.work.turns[i].phase.Dropped? then Some(BrokenRun)
    else if s.life.stopRequested then Some(CancelledRun)
    else if CompletedTurn(s.work.turns[i]) then None
    else
      var record := RecordOf(s.plan, s.work.turns[i], i);
      Some(if record.outcome.code.Some? then FailedRun(Project(record)) else BrokenRun)
  }

  function TurnFinished(s: Session): Session
    requires (s.pc.Planned? || s.pc.Directed?) && LastFinished(s.plan, s.work.turns)
  {
    var ending := EndingOf(s);
    if ending.Some? then Unwind(s.(turnActive := false), ending.value)
    else if s.pc.Planned? then s.(turnActive := false, pc := Between(s.pc.stage + 1))
    else DirectedFinished(s)
  }

  /** A member's review is accepted if its turn completed and produced a usable message. */
  predicate Accepted(t: Turn) { CompletedTurn(t) && t.phase.answer.Some? }

  predicate SomeAccepted(turns: seq<Turn>, first: nat) { exists i :: first <= i < |turns| && Accepted(turns[i]) }

  predicate SomeRefused(turns: seq<Turn>, first: nat) { exists i :: first <= i < |turns| && turns[i].phase.Dropped? }

  function ParallelFinished(s: Session, note: Stamp): Session
    requires s.pc.Parallel?
  {
    var idle := s.(turnActive := false);
    if s.life.stopRequested then Unwind(idle, CancelledRun)
    else if SomeRefused(s.work.turns, s.pc.first) then Unwind(idle, BrokenRun)
    else
      var t := Emit(idle, NoteOf(note, None));
      if SomeAccepted(s.work.turns, s.pc.first) then t.(pc := Between(s.pc.stage + 1))
      else Unwind(t, FailedRun(Bare(ParallelStageNoAcceptedMember, Some(s.pc.stage + 1))))
  }

  function Summary(n: Stamp): Event {
    Event(n.time, RefereeNote, Message, n.text, None, false, false, None)
  }

  function StagesFinished(s: Session, note: Stamp): Session {
    if s.plan.interactive then
      s.(accepting := true, pc := Announcing, life := SetStatus(s.life, AwaitingInput, None, note.time))
    else Unwind(Emit(s, Summary(note)), Normal)
  }

  function SessionClosed(s: Session, note: Stamp): Session {
    var t := Emit(Emit(s, NoteOf(note, None)), Summary(note));
    Unwind(t.(life := SetStatus(s.life, Done, None, note.time)), Normal)
  }

  function Aborted(s: Session, broken: bool, clears: bool): Session {
    Unwind(s.(work := s.work.(turns := GiveUpAll(s.work.turns)), turnActive := s.turnActive && !clears),
           if broken then BrokenRun else CancelledRun)
  }

  function FaultEvent(time: string): Event {
    Event(time, Fault, ErrorNote, "", None, false, false, None)
  }

  /** The status that `_run_session` publishes once the referee's coroutine has left. */
  function FinalLife(l: Life, ending: Ending, time: string): Life {
    match ending
    case Normal => if Live(l.status) && !l.stopRequested then SetStatus(l, Done, None, time) else l
    case CancelledRun =>
      if l.stopRequested then l
      else SetStatus(l, Status.Failed, Some(Bare(RefereeCancelledUnexpected, None)), time)
    case FailedRun(f) => SetStatus(l, Status.Failed, Some(f), time)
    case BrokenRun => SetStatus(l, Status.Failed, Some(Bare(ProviderTransportFailed, None)), time)
  }

  function Concluded(s: Session, time: string): Session
    requires s.pc.Unwinding?
  {
    s.(pc := Ended, life := FinalLife(s.life, s.pc.ending, time),
       log := if s.pc.ending.BrokenRun? then s.log.(events := s.log.events + [FaultEvent(time)]) else s.log)
  }

  /** A new daemon process: the index record survives, the event list is read back from the log, all else is gone. */
  function Restarted(s: Session, time: string): Session {
    s.(pc := Restored, log := s.log.(open := false, events := s.log.jsonl), work := s.work.(ledger := []),
       inbox := s.inbox.(queue := [], unfinished := 0, current := None),
       appender := false, turnActive := false, accepting := false,
       life := SetStatus(s.life, Status.Interrupted, None, time))
  }

  function ApplyInput(s: Session, a: InputAction): Session
    requires InputEnabled(s, a)
  {
    match a
    case Post(time, human, input) => Posted(s, time, human, input)
    case TakeInput(note, continues) => Taken(s, note, continues)
    case Announced => s.(pc := Waiting)
    case IdleClose => s.(pc := Closing, accepting := false)
    case CloseSession(note) => SessionClosed(s, note)
  }

  function ApplyStage(s: Session, a: StageAction): Session
    requires StageEnabled(s, a)
  {
    match a
    case Open(note, task) => Opened(s, note, task)
    case StartPlanned(note, continues) => PlannedStarted(s, note, continues)
    case StartParallel(note) => ParallelStarted(s, note)
    case FinishTurn => TurnFinished(s)
    case FinishParallel(note) => ParallelFinished(s, note)
    case FinishStages(note) => StagesFinished(s, note)
  }

  function ApplyTurn(s: Session, a: TurnAction): Session
    requires TurnEnabled(s, a)
  {
    match a
    case StartMember(i) => MemberStarted(s, i)
    case RunnerEmits(_, e) => Emit(s, e)
    case Arbitrate(i, o) => TurnArbitrated(s, i, o)
    case Commit(i, note) => Committed(s, i, note)
    case Refuse(i) => TurnRefused(s, i)
  }

  function ApplyExit(s: Session, a: ExitAction): Session
    requires ExitEnabled(s, a)
  {
    match a
    case Abort(broken, clears) => Aborted(s, broken, clears)
    case CloseLog => s.(log := s.log.(open := false))
    case Conclude(time) => Concluded(s, time)
    case RequestStop => s.(life := s.life.(stopRequested := true))
    case PublishStop(time) => s.(life := SetStatus(s.life, Stopped, None, time))
    case Restart(time) => Restarted(s, time)
  }

  predicate Enabled(s: Session, a: Action) {
    match a
    case OnInput(i) => InputEnabled(s, i)
    case OnStage(g) => StageEnabled(s, g)
    case OnTurn(t) => TurnEnabled(s, t)
    case OnExit(e) => ExitEnabled(s, e)
  }

  function Apply(s: Session, a: Action): Session
    requires Enabled(s, a)
  {
    match a
    case OnInput(i) => ApplyInput(s, i)
    case OnStage(g) => ApplyStage(s, g)
    case OnTurn(t) => ApplyTurn(s, t)
    case OnExit(e) => ApplyExit(s, e)
  }

  // ----- runs

  /** Every action of the run is enabled where it happens. */
  predicate Legal(s: Session, run: seq<Action>)
    decreases run
  {
    run == [] || (Enabled(s, run[0]) && Legal(Apply(s, run[0]), run[1..]))
  }

  function After(s: Session, run: seq<Action>): Session
    requires Legal(s, run)
    decreases run
  {
    if run == [] then s else After(Apply(s, run[0]), run[1..])
  }

  // ----- what clients are told

  predicate ResultSettled(s: Session) {
    Terminal(s.life.status) || (s.life.status.AwaitingInput? && s.accepting && s.inbox.unfinished == 0)
  }

  /** A restored session derives its answers from the events; a live one reports its ledger. */
  function SessionAnswers(s: Session): seq<Answer> {
    if s.pc.Restored? then DerivedAnswers(s.log.events) else CutAll(s.work.ledger)
  }

  datatype SessionResult = SessionResult(status: Status, settled: bool, cursor: nat, answers: seq<Answer>)

  function BuildResult(s: Session): SessionResult {
    var settled := ResultSettled(s);
    SessionResult(s.life.status, settled, |s.log.events|, if settled then SessionAnswers(s) else [])
  }
}
