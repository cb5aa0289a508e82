/** What every action of the session protocol keeps (agent_collab/referee.py, agent_collab/daemon.py). */
module SessionInvariants {
  import opened Common
  import opened Outcomes
  import opened Events
  import opened Answers
  import opened SessionProtocol

  // ----- lockstep of transcript, log file and daemon list

  /** What a later event of the daemon's list may be once the log is closed. */
  predicate Inert(e: Event) { e.boundary.None? && e.kind != Message }

  predicate Lockstep(l: Log) {
    && (l.open ==> l.transcript == l.jsonl && l.events == l.jsonl)
    && l.jsonl <= l.transcript && l.jsonl <= l.events
    && (forall i :: |l.jsonl| <= i < |l.events| ==> Inert(l.events[i]))
    && PlainEvents(l.transcript)
    && PlainEvents(l.events)
  }

  predicate LogInv(s: Session) {
    && Lockstep(s.log)
    && (s.pc.Opening? ==> s.log == Log([], [], [], false))
    && (InRun(s.pc) && !s.pc.Opening? ==> s.log.open)
    && (s.pc.Ended? || s.pc.Restored? ==> !s.log.open)
    && (s.appender ==> InRun(s.pc) && !s.pc.Opening? && s.plan.interactive)
  }

  // ----- control flow and turns

  predicate ParallelPlan(p: Plan) { |p.stages| == 1 && |p.stages[0]| > 1 }

  predicate AllCompleted(turns: seq<Turn>) { forall i :: 0 <= i < |turns| ==> CompletedTurn(turns[i]) }

  predicate WellFormedTurn(p: Plan, t: Turn) {
    && t.agent in p.members && t.stageIndex >= 1
    && (t.phase.Arbitrated? || t.phase.Settled? ==>
          WellFormedOutcome(t.phase.outcome) && (t.phase.outcome.kind.Completed? || t.phase.answer.None?))
  }

  predicate LastOpen(turns: seq<Turn>) {
    && turns != []
    && (forall i :: 0 <= i < |turns| - 1 ==> CompletedTurn(turns[i]))
    && !turns[|turns| - 1].phase.Allocated?
  }

  predicate Closed(turns: seq<Turn>) {
    forall i :: 0 <= i < |turns| ==> Finished(turns[i])
  }

  predicate StageInv(p: Plan, pc: Pc, turns: seq<Turn>) {
    match pc
    case Opening => turns == []
    case Between(n) =>
      && n <= |p.stages|
      && (n < |p.stages| || !ParallelPlan(p) ==> AllCompleted(turns))
      && (ParallelPlan(p) && n == 0 ==> turns == [])
      && (forall i :: 0 <= i < |turns| ==> turns[i].phase.Settled?)
    case Planned(i) => i < |p.stages| && |p.stages[i]| == 1 && !ParallelPlan(p) && LastOpen(turns)
    case Parallel(i, first) =>
      && ParallelPlan(p) && i == 0 && first == 0 && |turns| == |p.stages[0]|
      && (forall k :: 0 <= k < |turns| ==> turns[k].agent == p.stages[0][k])
    case Directed(back) =>
      p.interactive && !ParallelPlan(p) && LastOpen(turns) && (back.ToStages? ==> back.next <= |p.stages|)
    case Announcing => p.interactive && AllCompleted(turns)
    case Waiting => p.interactive && AllCompleted(turns)
    case Closing => p.interactive && AllCompleted(turns)
    case Unwinding(_) => Closed(turns)
    case Ended => Closed(turns)
    case Restored => true
  }

  /** An agent whose turn did not complete never runs another turn. */
  predicate AgentOnce(turns: seq<Turn>) {
    forall i, j :: 0 <= i < j < |turns| && turns[i].agent == turns[j].agent ==> CompletedTurn(turns[i])
  }

  predicate TurnInv(s: Session) {
    && WellFormedPlan(s.plan)
    && (forall i :: 0 <= i < |s.work.turns| ==> WellFormedTurn(s.plan, s.work.turns[i]))
    && StageInv(s.plan, s.pc, s.work.turns)
    && AgentOnce(s.work.turns)
  }

  // ----- committed outcomes

  function Boundaries(t: seq<Event>): seq<TurnRecord> {
    if t == [] then []
    else Boundaries(t[..|t| - 1]) + (if t[|t| - 1].boundary.Some? then [t[|t| - 1].boundary.value] else [])
  }

  predicate CommitInv(p: Plan, w: Work, jsonl: seq<Event>) {
    && |w.committed| == |w.outcomes|
    && (forall k :: 0 <= k < |w.committed| ==>
          && w.committed[k] < |w.turns| && w.turns[w.committed[k]].phase.Settled?
          && w.turns[w.committed[k]].agent in p.backends
          && w.outcomes[k] == RecordOf(p, w.turns[w.committed[k]], w.committed[k])
          && WellFormedRecord(w.outcomes[k]))
    && (forall j, k :: 0 <= j < k < |w.committed| ==> w.committed[j] != w.committed[k])
    && (forall i :: 0 <= i < |w.turns| && w.turns[i].phase.Settled? ==> i in w.committed)
    && Boundaries(jsonl) == w.outcomes
  }

  // ----- the two answer ledgers

  /** Every turn the agent ran so far completed. */
  predicate Quiet(turns: seq<Turn>, a: AgentId) {
    forall i :: 0 <= i < |turns| && turns[i].agent == a ==> CompletedTurn(turns[i])
  }

  predicate OpenSpan(t: Turn) { t.phase.InFlight? || (t.phase.Arbitrated? && t.phase.outcome.kind.Completed?) }

  /** The fold's pending slot for the agent of an open turn is the scan of that turn's span. */
  predicate SpanAgrees(f: Fold, transcript: seq<Event>, t: Turn) {
    && (OpenSpan(t) ==>
          && t.span <= |transcript|
          && PendingOf(f, t.agent) == CutSlot(Scan(transcript, t.span, |transcript|, t.agent))
          && (t.phase.Arbitrated? ==> t.phase.answer == TurnAnswer(transcript, t.span, t.agent)))
    && (t.phase.Allocated? ==> PendingOf(f, t.agent) == EMPTY)
  }

  ghost predicate LedgerInv(log: Log, w: Work) {
    var f := Derive(log.events);
    && CutAll(w.ledger) == f.ledger
    && (forall i :: 0 <= i < |w.turns| ==> SpanAgrees(f, log.transcript, w.turns[i]))
    && (forall a :: a != "" && Quiet(w.turns, a) ==> PendingOf(f, a) == EMPTY)
  }

  // ----- inputs

  function Routed(p: Plan, l: seq<Input>): seq<Input> {
    if l == [] then []
    else Routed(p, l[..|l| - 1]) + (if Route(p, l[|l| - 1]).Some? then [l[|l| - 1]] else [])
  }

  function DirectedTurns(turns: seq<Turn>): (r: seq<nat>)
    ensures forall k :: 0 <= k < |r| ==> r[k] < |turns|
  {
    if turns == [] then []
    else DirectedTurns(turns[..|turns| - 1]) + (if turns[|turns| - 1].directed then [|turns| - 1] else [])
  }

  function InProcess(b: Inbox): seq<Input> { if b.current.Some? then [b.current.value] else [] }

  predicate Accounted(b: Inbox) {
    && b.posted == b.consumed + b.dropped + InProcess(b) + b.queue
    && b.unfinished == |b.queue| + |InProcess(b)|
  }

  /** Each consumed routed post has its own completed directed turn, in order. */
  predicate AnsweredInv(p: Plan, b: Inbox, turns: seq<Turn>) {
    && |b.answeredBy| == |Routed(p, b.consumed)|
    && (forall k :: 0 <= k < |b.answeredBy| ==>
          && b.answeredBy[k] < |turns| && CompletedTurn(turns[b.answeredBy[k]])
          && Some(turns[b.answeredBy[k]].agent) == Route(p, Routed(p, b.consumed)[k]))
  }

  predicate DirectedInv(p: Plan, pc: Pc, b: Inbox, turns: seq<Turn>) {
    if pc.Directed? then
      && turns != [] && b.current.Some?
      && DirectedTurns(turns) == b.answeredBy + [|turns| - 1]
      && Route(p, b.current.value) == Some(turns[|turns| - 1].agent)
    else b.current.None? && (b.dropped == [] ==> DirectedTurns(turns) == b.answeredBy)
  }

  predicate AwaitingPc(pc: Pc) { pc.Announcing? || pc.Waiting? || (pc.Directed? && pc.back.ToWaiting?) }

  /** Where the run is decides the status, the accepting flag and the active-turn flag. */
  predicate FlagInv(s: Session) {
    && (InRun(s.pc) ==>
          && s.accepting == AwaitingPc(s.pc)
          && s.life.status == (if AwaitingPc(s.pc) || s.pc.Closing? then AwaitingInput else Running)
          && (s.turnActive ==> s.pc.Planned? || s.pc.Parallel? || s.pc.Directed?))
    && (!InRun(s.pc) && s.accepting ==> !s.turnActive)
  }

  /** Nothing was given up halfway: an interactive run ends as done only with posts that it never took. */
  predicate NothingGivenUp(b: Inbox) { b.dropped == [] && b.current.None? }

  predicate InboxInv(s: Session) {
    && Accounted(s.inbox)
    && (InRun(s.pc) ==> s.inbox.dropped == [])
    && (!s.plan.interactive ==> s.inbox.posted == [])
    && (forall k :: 0 <= k < |s.inbox.queue| ==> KnownTarget(s.plan, s.inbox.queue[k]))
    && (s.pc.Closing? || s.life.status.Done? || (s.pc.Unwinding? && s.pc.ending.Normal?) ==> NothingGivenUp(s.inbox))
    && AnsweredInv(s.plan, s.inbox, s.work.turns)
    && DirectedInv(s.plan, s.pc, s.inbox, s.work.turns)
  }

  // ----- status and failure

  predicate ProjectsTo(r: TurnRecord, f: SessionFailure) { r.outcome.code.Some? && Project(r) == f }

  /** The failure is that of a committed turn that did not complete. */
  predicate NamesOutcome(outcomes: seq<TurnRecord>, f: SessionFailure) {
    f.turnId.Some? ==>
      exists k :: 0 <= k < |outcomes| && !outcomes[k].outcome.kind.Completed? && ProjectsTo(outcomes[k], f)
  }

  predicate LifeInv(s: Session) {
    && (s.life.failure.Some? <==> s.life.status.Failed?)
    && (s.life.endedAt.Some? <==> Terminal(s.life.status))
    && (s.pc.Restored? ==> Terminal(s.life.status))
    && (s.life.failure.Some? ==> NamesOutcome(s.work.outcomes, s.life.failure.value))
    && (s.pc.Unwinding? && s.pc.ending.FailedRun? ==> NamesOutcome(s.work.outcomes, s.pc.ending.failure))
  }

  // ----- prompts

  predicate PromptInv(p: Prompts, transcript: seq<Event>) {
    && p.watermarks.Keys == p.sent.Keys
    && forall a :: a in p.sent ==>
         && p.sent[a].start <= p.watermarks[a] <= |transcript|
         && p.sent[a].delivered == Visible(transcript, p.sent[a].start, p.watermarks[a], a)
  }

  // ----- together

  ghost predicate Inv(s: Session) {
    && LogInv(s)
    && TurnInv(s)
    && CommitInv(s.plan, s.work, s.log.jsonl)
    && PromptInv(s.prompts, s.log.transcript)
    && LifeInv(s)
    && (!s.pc.Restored? ==> LedgerInv(s.log, s.work) && InboxInv(s) && FlagInv(s))
  }

  lemma InitInv(p: Plan)
    requires WellFormedPlan(p)
    ensures Inv(Init(p))
  {
    var s := Init(p);
    assert LogInv(s) && TurnInv(s);
    assert CommitInv(p, s.work, []) && LedgerInv(s.log, s.work);
    assert PromptInv(s.prompts, []) && LifeInv(s);
    assert InboxInv(s) && FlagInv(s);
  }

  // ----- one more event

  lemma {:induction false} VisibleGrows(t: seq<Event>, u: seq<Event>, from: nat, to: nat, a: AgentId)
    requires t <= u && to <= |t|
    ensures Visible(u, from, to, a) == Visible(t, from, to, a)
  {
    if from < to {
      VisibleGrows(t, u, from, to - 1, a);
    }
  }

  lemma PromptsGrow(p: Prompts, t: seq<Event>, u: seq<Event>)
    requires PromptInv(p, t) && t <= u
    ensures PromptInv(p, u)
  {
    forall a | a in p.sent
      ensures Visible(u, p.sent[a].start, p.watermarks[a], a) == Visible(t, p.sent[a].start, p.watermarks[a], a)
    {
      VisibleGrows(t, u, p.sent[a].start, p.watermarks[a], a);
    }
  }

  lemma BoundariesAppend(t: seq<Event>, e: Event)
    ensures Boundaries(t + [e]) == Boundaries(t) + (if e.boundary.Some? then [e.boundary.value] else [])
  {
    assert (t + [e])[..|t|] == t;
  }

  lemma DeriveAppend(t: seq<Event>, e: Event)
    ensures Derive(t + [e]) == FoldStep(Derive(t), |t|, e)
  {
    assert (t + [e])[..|t|] == t;
  }

  lemma ScanAppend(t: seq<Event>, e: Event, from: nat, a: AgentId)
    requires from <= |t|
    ensures Scan(t + [e], from, |t| + 1, a) ==
            if !Usable(e, a) then Scan(t, from, |t|, a)
            else var entry := Some(Entry(e, |t|, a)); Slot(entry, if e.final then entry else Scan(t, from, |t|, a).final)
  {
    assert (t + [e])[..|t|] == t;
    ScanPrefix(t + [e], |t|, from, |t|, a);
  }

  /** An event that neither closes a turn nor can be anyone's answer. */
  predicate Passive(e: Event) { e.boundary.None? && (e.agent.None? || e.kind != Message) }

  lemma SpanUnmoved(f: Fold, t: seq<Event>, e: Event, turn: Turn)
    requires Passive(e) && SpanAgrees(f, t, turn)
    ensures SpanAgrees(f, t + [e], turn)
  {
    hide Scan;
    if OpenSpan(turn) {
      ScanAppend(t, e, turn.span, turn.agent);
    }
  }

  lemma PassiveDerived(t: seq<Event>, e: Event)
    requires Passive(e)
    ensures Derive(t + [e]) == Derive(t)
  {
    DeriveAppend(t, e);
  }

  lemma PassiveLockstep(log: Log, e: Event)
    requires Lockstep(log) && Passive(e)
    ensures Lockstep(Append(log, e))
  {}

  /** Passive events change neither ledger, nor any pending slot, nor any scan. */
  lemma PassiveAppend(log: Log, w: Work, e: Event)
    requires Lockstep(log) && LedgerInv(log, w) && Passive(e)
    ensures Lockstep(Append(log, e)) && LedgerInv(Append(log, e), w)
    ensures Boundaries(Append(log, e).jsonl) == Boundaries(log.jsonl)
  {
    hide Derive, FoldStep, CutAll, Boundaries, SpanAgrees, Quiet, PendingOf, Lockstep;
    PassiveLockstep(log, e);
    PassiveDerived(log.events, e);
    BoundariesAppend(log.jsonl, e);
    forall i | 0 <= i < |w.turns| ensures SpanAgrees(Derive(log.events), log.transcript + [e], w.turns[i]) {
      SpanUnmoved(Derive(log.events), log.transcript, e, w.turns[i]);
    }
  }
}
