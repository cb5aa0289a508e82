/** Every action of the session protocol keeps the invariant: one lemma per action. */
module SessionSteps {
  import opened Common
  import opened Outcomes
  import opened Events
  import opened Answers
  import opened SessionProtocol
  import opened SessionInvariants

  // ----- building blocks

  lemma {:induction false} VisibleSplit(t: seq<Event>, i: nat, j: nat, k: nat, a: AgentId)
    requires i <= j <= k <= |t|
    ensures Visible(t, i, k, a) == Visible(t, i, j, a) + Visible(t, j, k, a)
  {
    if j < k {
      VisibleSplit(t, i, j, k - 1, a);
    }
  }

  /** A continuation prompt extends what the conversation was sent by exactly the stretch since the watermark. */
  lemma PromptBuilt(p: Prompts, t: seq<Event>, a: AgentId, continues: bool)
    requires PromptInv(p, t)
    ensures PromptInv(BuildPrompt(p, t, a, continues), t)
  {
    VisibleSplit(t, SentTo(p, a).start, Watermark(p, a), |t|, a);
    assert Visible(t, 0, 0, a) == [];
  }

  lemma {:induction false} AllMarked(p: Prompts, t: seq<Event>, members: seq<AgentId>)
    requires PromptInv(p, t)
    ensures PromptInv(MarkAll(p, t, members), t)
  {
    if members != [] {
      AllMarked(p, t, members[..|members| - 1]);
      PromptBuilt(MarkAll(p, t, members[..|members| - 1]), t, members[|members| - 1], false);
    }
  }

  lemma DirectedAppend(turns: seq<Turn>, t: Turn)
    ensures DirectedTurns(turns + [t]) == DirectedTurns(turns) + (if t.directed then [|turns|] else [])
  {
    assert (turns + [t])[..|turns|] == turns;
  }

  lemma {:induction false} DirectedSame(t: seq<Turn>, u: seq<Turn>)
    requires |t| == |u| && forall i :: 0 <= i < |t| ==> t[i].directed == u[i].directed
    ensures DirectedTurns(t) == DirectedTurns(u)
  {
    if t != [] {
      DirectedSame(t[..|t| - 1], u[..|u| - 1]);
    }
  }

  lemma {:induction false} NoneDirected(t: seq<Turn>)
    requires forall i :: 0 <= i < |t| ==> !t[i].directed
    ensures DirectedTurns(t) == []
  {
    if t != [] {
      NoneDirected(t[..|t| - 1]);
    }
  }

  lemma RoutedAppend(p: Plan, l: seq<Input>, i: Input)
    ensures Routed(p, l + [i]) == Routed(p, l) + (if Route(p, i).Some? then [i] else [])
  {
    assert (l + [i])[..|l|] == l;
  }

  lemma RouteIsMember(p: Plan, i: Input)
    requires i.target.Some? ==> i.target.value in p.members
    ensures Route(p, i).Some? ==> Route(p, i).value in p.members
  {}

  lemma {:induction false} CutUpsert(l: seq<Answer>, x: Answer)
    ensures CutAll(Upsert(l, x)) == Upsert(CutAll(l), Cut(x))
  {
    if l != [] {
      CutUpsert(l[1..], x);
      if l[0].agent != x.agent {
        assert Upsert(l, x)[1..] == Upsert(l[1..], x);
      } else {
        assert Upsert(l, x)[1..] == l[1..];
      }
    }
  }

  /** A new turn opens an empty span for an agent with nothing pending. */
  lemma TurnAdded(p: Plan, log: Log, w: Work, t: Turn)
    requires LedgerInv(log, w) && CommitInv(p, w, log.jsonl)
    requires t.agent != "" && Quiet(w.turns, t.agent)
    requires t.phase.Allocated? || (t.phase.InFlight? && t.span == |log.transcript|)
    ensures LedgerInv(log, w.(turns := w.turns + [t])) && CommitInv(p, w.(turns := w.turns + [t]), log.jsonl)
  {
    var turns := w.turns + [t];
    forall a | a != "" && Quiet(turns, a) ensures Quiet(w.turns, a) {
      forall i | 0 <= i < |w.turns| && w.turns[i].agent == a ensures CompletedTurn(w.turns[i]) {
        assert turns[i] == w.turns[i];
      }
    }
    forall i | 0 <= i < |turns| ensures SpanAgrees(Derive(log.events), log.transcript, turns[i]) {
      if i < |w.turns| {
        assert SpanAgrees(Derive(log.events), log.transcript, w.turns[i]);
      }
    }
  }

  // ----- control flow: where the run is, its log and its turns

  lemma StageLogKept(s: Session, a: StageAction)
    requires LogInv(s) && StageEnabled(s, a) && !a.FinishTurn? && !a.FinishParallel?
    ensures LogInv(ApplyStage(s, a))
  {
    hide BuildPrompt, MarkAll, AllocateAll, LastFinished;
  }

  lemma FinishTurnLogKept(s: Session)
    requires LogInv(s) && (s.pc.Planned? || s.pc.Directed?) && LastFinished(s.plan, s.work.turns)
    ensures LogInv(TurnFinished(s))
  {}

  lemma UnwindLogKept(s: Session, ending: Ending)
    requires LogInv(s) && InRun(s.pc)
    ensures LogInv(Unwind(s, ending))
  {}

  lemma NoteLogKept(s: Session, e: Event)
    requires LogInv(s) && InRun(s.pc) && !s.pc.Opening? && e.boundary.None?
    ensures LogInv(Emit(s, e))
  {}

  lemma FinishParallelLogKept(s: Session, note: Stamp)
    requires LogInv(s) && s.pc.Parallel?
    ensures LogInv(ParallelFinished(s, note))
  {
    var idle := s.(turnActive := false);
    UnwindLogKept(idle, CancelledRun);
    NoteLogKept(idle, NoteOf(note, None));
    var t := Emit(idle, NoteOf(note, None));
    assert LogInv(t.(pc := Between(s.pc.stage + 1)));
    UnwindLogKept(t, FailedRun(Bare(ParallelStageNoAcceptedMember, Some(s.pc.stage + 1))));
  }

  lemma PostLogKept(s: Session, time: string, human: bool, input: Input)
    requires LogInv(s) && PostAccepted(s)
    ensures LogInv(Posted(s, time, human, input))
  {}

  lemma TakeLogKept(s: Session, note: Stamp, continues: bool)
    requires LogInv(s) && InputEnabled(s, TakeInput(note, continues))
    ensures LogInv(Taken(s, note, continues))
  {
    hide BuildPrompt, Route;
  }

  lemma InputLogKept(s: Session, a: InputAction)
    requires LogInv(s) && InputEnabled(s, a)
    ensures LogInv(ApplyInput(s, a))
  {
    match a {
      case Post(time, human, input) =>
        hide LogInv;
        PostLogKept(s, time, human, input);
      case TakeInput(note, continues) =>
        hide LogInv;
        TakeLogKept(s, note, continues);
      case CloseSession(note) =>
        hide LogInv;
        CloseLogKept(s, note);
      case _ =>
    }
  }

  lemma CloseLogKept(s: Session, note: Stamp)
    requires LogInv(s) && s.pc.Closing?
    ensures LogInv(SessionClosed(s, note))
  {}

  lemma TurnLogKept(s: Session, a: TurnAction)
    requires LogInv(s) && TurnInv(s) && TurnEnabled(s, a)
    ensures LogInv(ApplyTurn(s, a))
  {}

  lemma ExitLogKept(s: Session, a: ExitAction)
    requires LogInv(s) && ExitEnabled(s, a)
    ensures LogInv(ApplyExit(s, a))
  {}

  lemma OneMoreTurn(p: Plan, turns: seq<Turn>, t: Turn)
    requires AllCompleted(turns) && WellFormedTurn(p, t) && t.phase.InFlight?
    requires forall i :: 0 <= i < |turns| ==> WellFormedTurn(p, turns[i])
    ensures var more := turns + [t];
            && LastOpen(more) && AgentOnce(more)
            && (forall i :: 0 <= i < |more| ==> WellFormedTurn(p, more[i]))
  {}

  lemma InteractivePlan(p: Plan)
    requires WellFormedPlan(p) && p.interactive
    ensures !ParallelPlan(p)
  {}

  lemma TakeTurnsKept(s: Session, note: Stamp, continues: bool)
    requires TurnInv(s) && InputEnabled(s, TakeInput(note, continues)) && KnownTarget(s.plan, s.inbox.queue[0])
    ensures TurnInv(Taken(s, note, continues))
  {
    hide Append, BuildPrompt, WellFormedPlan;
    var t := Taken(s, note, continues);
    var route := Route(s.plan, s.inbox.queue[0]);
    if route.Some? {
      RouteIsMember(s.plan, s.inbox.queue[0]);
      InteractivePlan(s.plan);
      OneMoreTurn(s.plan, s.work.turns, t.work.turns[|s.work.turns|]);
    }
  }

  lemma LoopTurnsKept(s: Session, a: InputAction)
    requires TurnInv(s) && InputEnabled(s, a) && !a.TakeInput?
    ensures TurnInv(ApplyInput(s, a))
  {}

  lemma Moved(s: Session, t: Session)
    requires TurnInv(s) && t.plan == s.plan && t.work.turns == s.work.turns
    requires StageInv(s.plan, t.pc, s.work.turns)
    ensures TurnInv(t)
  {}

  lemma AllSettled(s: Session)
    requires TurnInv(s) && s.pc.Parallel?
    requires forall i :: s.pc.first <= i < |s.work.turns| ==> Finished(s.work.turns[i])
    ensures s.pc.stage == 0 && Closed(s.work.turns)
    ensures !SomeRefused(s.work.turns, s.pc.first) ==> StageInv(s.plan, Between(1), s.work.turns)
  {}

  lemma PlannedTurnsKept(s: Session, note: Stamp, continues: bool)
    requires TurnInv(s) && StageEnabled(s, StartPlanned(note, continues))
    ensures TurnInv(PlannedStarted(s, note, continues))
  {}

  lemma AllocatedTurns(p: Plan)
    requires WellFormedPlan(p) && ParallelPlan(p)
    ensures var added := AllocateAll(p.stages[0], 1);
            && (forall i :: 0 <= i < |added| ==> WellFormedTurn(p, added[i]))
            && AgentOnce(added) && StageInv(p, Parallel(0, 0), added)
  {}

  lemma ParallelTurnsKept(s: Session, note: Stamp)
    requires TurnInv(s) && StageEnabled(s, StartParallel(note))
    ensures TurnInv(ParallelStarted(s, note))
  {
    hide Append, MarkAll, AllCompleted;
    var t := ParallelStarted(s, note);
    AllocatedTurns(s.plan);
    assert t.plan == s.plan && t.pc == Parallel(0, 0) && t.work.turns == AllocateAll(s.plan.stages[0], 1);
  }

  lemma OtherTurnsKept(s: Session, a: StageAction)
    requires TurnInv(s) && StageEnabled(s, a) && (a.Open? || a.FinishStages?)
    ensures TurnInv(ApplyStage(s, a))
  {
    var t := ApplyStage(s, a);
    assert t.plan == s.plan && t.work == s.work;
    assert StageInv(s.plan, t.pc, s.work.turns) by {
      hide AgentOnce, WellFormedTurn, WellFormedPlan, Append, SetStatus;
    }
    hide *;
    Moved(s, t);
  }

  lemma LastFinishedStage(s: Session)
    requires TurnInv(s) && (s.pc.Planned? || s.pc.Directed?) && LastFinished(s.plan, s.work.turns)
    ensures Closed(s.work.turns)
    ensures CompletedTurn(s.work.turns[|s.work.turns| - 1]) ==>
              && AllCompleted(s.work.turns)
              && (s.pc.Planned? ==> StageInv(s.plan, Between(s.pc.stage + 1), s.work.turns))
              && (s.pc.Directed? ==> StageInv(s.plan, Waiting, s.work.turns))
              && (s.pc.Directed? && s.pc.back.ToStages? ==> StageInv(s.plan, Between(s.pc.back.next), s.work.turns))
  {}

  lemma FinishTurnTurnsKept(s: Session)
    requires TurnInv(s) && (s.pc.Planned? || s.pc.Directed?) && LastFinished(s.plan, s.work.turns)
    ensures TurnInv(TurnFinished(s))
  {
    hide RecordOf, Project, Answered, Abandoned, AllCompleted;
    var t := TurnFinished(s);
    LastFinishedStage(s);
    assert StageInv(s.plan, t.pc, s.work.turns) by {
      hide TurnInv, AllCompleted, RecordOf, Project;
      if EndingOf(s).None? {
        assert CompletedTurn(s.work.turns[|s.work.turns| - 1]);
      }
    }
    assert t.plan == s.plan && t.work == s.work by {
      hide EndingOf, TurnInv, StageInv;
    }
    hide *;
    Moved(s, t);
  }

  lemma FinishParallelTurnsKept(s: Session, note: Stamp)
    requires TurnInv(s) && StageEnabled(s, FinishParallel(note))
    ensures TurnInv(ParallelFinished(s, note))
  {
    var t := ParallelFinished(s, note);
    assert t.plan == s.plan && t.work == s.work;
    AllSettled(s);
    assert t.pc == Between(1) || t.pc.Unwinding?;
    Moved(s, t);
  }

  /** One turn of a run changes its phase, and neither completes by it nor was completed. */
  predicate PhaseChanged(p: Plan, t: seq<Turn>, u: seq<Turn>, i: nat) {
    && i < |t| == |u|
    && (forall j :: 0 <= j < |t| && j != i ==> u[j] == t[j])
    && u[i].agent == t[i].agent && WellFormedTurn(p, u[i])
    && !t[i].phase.Settled? && !t[i].phase.Dropped? && !u[i].phase.Allocated?
  }

  lemma PhaseChangeKept(s: Session, t: Session, i: nat)
    requires TurnInv(s) && InRun(s.pc) && t.plan == s.plan && t.pc == s.pc && PhaseChanged(s.plan, s.work.turns, t.work.turns, i)
    ensures TurnInv(t)
  {
    hide WellFormedPlan, WellFormedTurn;
    var turns := s.work.turns;
    assert s.pc.Planned? || s.pc.Directed? || s.pc.Parallel?;
    if !s.pc.Parallel? {
      assert i == |turns| - 1;
    }
  }

  lemma MemberPhase(s: Session, i: nat)
    requires TurnInv(s) && TurnEnabled(s, StartMember(i))
    ensures PhaseChanged(s.plan, s.work.turns, MemberStarted(s, i).work.turns, i)
  {
    hide StageInv, AgentOnce, WellFormedPlan;
    assert WellFormedTurn(s.plan, s.work.turns[i]);
  }

  lemma ArbitratePhase(s: Session, i: nat, o: TurnOutcome)
    requires TurnInv(s) && TurnEnabled(s, Arbitrate(i, o))
    ensures PhaseChanged(s.plan, s.work.turns, TurnArbitrated(s, i, o).work.turns, i)
  {
    hide StageInv, AgentOnce, WellFormedPlan, WellFormedOutcome, TurnAnswer;
    assert WellFormedTurn(s.plan, s.work.turns[i]);
  }

  lemma CommitPhase(s: Session, i: nat, note: Stamp)
    requires TurnInv(s) && TurnEnabled(s, Commit(i, note))
    ensures PhaseChanged(s.plan, s.work.turns, Committed(s, i, note).work.turns, i)
  {
    hide StageInv, AgentOnce, WellFormedPlan, WellFormedOutcome, Recordable, Append, RecordOf, Upsert;
    assert WellFormedTurn(s.plan, s.work.turns[i]);
  }

  lemma RefusePhase(s: Session, i: nat)
    requires TurnInv(s) && TurnEnabled(s, Refuse(i))
    ensures PhaseChanged(s.plan, s.work.turns, TurnRefused(s, i).work.turns, i)
  {
    hide StageInv, AgentOnce, WellFormedPlan, WellFormedOutcome, Recordable;
    assert WellFormedTurn(s.plan, s.work.turns[i]);
  }

  lemma TurnTurnsKept(s: Session, a: TurnAction)
    requires TurnInv(s) && TurnEnabled(s, a)
    ensures TurnInv(ApplyTurn(s, a))
  {
    hide TurnInv, Append, Recordable, WellFormedOutcome, PhaseChanged, CommitWork;
    var t := ApplyTurn(s, a);
    match a {
      case RunnerEmits(_, _) =>
        StageUnchanged(s, t);
      case StartMember(i) =>
        MemberPhase(s, i);
        PhaseChangeKept(s, t, i);
      case Arbitrate(i, o) =>
        ArbitratePhase(s, i, o);
        PhaseChangeKept(s, t, i);
      case Commit(i, note) =>
        CommitPhase(s, i, note);
        PhaseChangeKept(s, t, i);
      case Refuse(i) =>
        RefusePhase(s, i);
        PhaseChangeKept(s, t, i);
    }
  }

  lemma StageUnchanged(s: Session, t: Session)
    requires TurnInv(s) && t.plan == s.plan && t.pc == s.pc && t.work == s.work
    ensures TurnInv(t)
  {}

  lemma ExitTurnsKept(s: Session, a: ExitAction)
    requires TurnInv(s) && ExitEnabled(s, a)
    ensures TurnInv(ApplyExit(s, a))
  {}

  // ----- flags, status and failure

  lemma InputFlagsKept(s: Session, a: InputAction)
    requires FlagInv(s) && InputEnabled(s, a)
    ensures FlagInv(ApplyInput(s, a))
  {}

  lemma FinishFlagsKept(s: Session)
    requires TurnInv(s) && FlagInv(s) && StageEnabled(s, FinishTurn)
    ensures FlagInv(TurnFinished(s))
  {
    hide EndingOf, AgentOnce, WellFormedTurn, WellFormedPlan, Answered, Abandoned;
  }

  lemma StageFlagsKept(s: Session, a: StageAction)
    requires TurnInv(s) && FlagInv(s) && StageEnabled(s, a)
    ensures FlagInv(ApplyStage(s, a))
  {
    hide EndingOf, AgentOnce, WellFormedTurn, Append, BuildPrompt, MarkAll, SomeAccepted, SomeRefused, Abandoned;
    if a.FinishTurn? {
      hide FlagInv, TurnInv, TurnFinished;
      FinishFlagsKept(s);
    }
  }

  lemma TurnFlagsKept(s: Session, a: TurnAction)
    requires FlagInv(s) && TurnEnabled(s, a)
    ensures FlagInv(ApplyTurn(s, a))
  {}

  lemma ExitFlagsKept(s: Session, a: ExitAction)
    requires FlagInv(s) && ExitEnabled(s, a)
    ensures FlagInv(ApplyExit(s, a))
  {}

  lemma InputLifeKept(s: Session, a: InputAction)
    requires LifeInv(s) && FlagInv(s) && InputEnabled(s, a)
    ensures LifeInv(ApplyInput(s, a))
  {}

  lemma UnwindLifeKept(s: Session, ending: Ending)
    requires LifeInv(s) && (ending.FailedRun? ==> NamesOutcome(s.work.outcomes, ending.failure))
    ensures LifeInv(Unwind(s, ending))
  {
    hide NamesOutcome;
  }

  lemma EndingNames(s: Session)
    requires LifeInv(s) && TurnInv(s) && CommitInv(s.plan, s.work, s.log.jsonl) && LastFinished(s.plan, s.work.turns)
    ensures EndingOf(s).Some? && EndingOf(s).value.FailedRun? ==> NamesOutcome(s.work.outcomes, EndingOf(s).value.failure)
  {
    hide CommitInv, TurnInv, LifeInv, NamesOutcome;
    if s.work.turns[|s.work.turns| - 1].phase.Settled? {
      FailureNamesTurn(s);
    }
  }

  lemma OnwardLifeKept(s: Session, t: Session)
    requires LifeInv(s) && t.life == s.life && t.work == s.work && !t.pc.Restored? && !t.pc.Unwinding?
    ensures LifeInv(t)
  {
    hide NamesOutcome;
  }

  lemma FinishTurnLifeKept(s: Session)
    requires LifeInv(s) && TurnInv(s) && CommitInv(s.plan, s.work, s.log.jsonl)
    requires (s.pc.Planned? || s.pc.Directed?) && LastFinished(s.plan, s.work.turns)
    ensures LifeInv(TurnFinished(s))
  {
    hide EndingOf, CommitInv, TurnInv, LifeInv, NamesOutcome, LastFinished, Unwind;
    EndingNames(s);
    if EndingOf(s).Some? {
      IdleLifeKept(s);
      UnwindLifeKept(s.(turnActive := false), EndingOf(s).value);
    } else {
      OnwardLifeKept(s, TurnFinished(s));
    }
  }

  lemma IdleLifeKept(s: Session)
    requires LifeInv(s)
    ensures LifeInv(s.(turnActive := false))
  {
    hide NamesOutcome;
  }

  lemma StageLifeKept(s: Session, a: StageAction)
    requires LifeInv(s) && FlagInv(s) && StageEnabled(s, a) && !a.FinishTurn?
    ensures LifeInv(ApplyStage(s, a))
  {}

  /** The turn that ends a run is among the committed outcomes. */
  lemma FailureNamesTurn(s: Session)
    requires TurnInv(s) && CommitInv(s.plan, s.work, s.log.jsonl)
    requires LastFinished(s.plan, s.work.turns) && s.work.turns[|s.work.turns| - 1].phase.Settled?
    ensures var i := |s.work.turns| - 1;
            var record := RecordOf(s.plan, s.work.turns[i], i);
            record in s.work.outcomes
            && (!CompletedTurn(s.work.turns[i]) ==>
                  record.outcome.code.Some? && NamesOutcome(s.work.outcomes, Project(record)))
  {
    var i := |s.work.turns| - 1;
    var k :| 0 <= k < |s.work.committed| && s.work.committed[k] == i;
    assert s.work.outcomes[k] == RecordOf(s.plan, s.work.turns[i], i);
    assert WellFormedTurn(s.plan, s.work.turns[i]);
    if !CompletedTurn(s.work.turns[i]) {
      assert ProjectsTo(s.work.outcomes[k], Project(s.work.outcomes[k]));
    }
  }

  lemma OutcomesGrow(o: seq<TurnRecord>, p: seq<TurnRecord>, f: SessionFailure)
    requires o <= p && NamesOutcome(o, f)
    ensures NamesOutcome(p, f)
  {
    if f.turnId.Some? {
      var k :| 0 <= k < |o| && !o[k].outcome.kind.Completed? && ProjectsTo(o[k], f);
      assert p[k] == o[k];
    }
  }

  lemma TurnLifeKept(s: Session, a: TurnAction)
    requires LifeInv(s) && TurnEnabled(s, a)
    ensures LifeInv(ApplyTurn(s, a))
  {
    var o, p := s.work.outcomes, ApplyTurn(s, a).work.outcomes;
    if s.life.failure.Some? {
      OutcomesGrow(o, p, s.life.failure.value);
    }
    if s.pc.Unwinding? && s.pc.ending.FailedRun? {
      OutcomesGrow(o, p, s.pc.ending.failure);
    }
  }

  lemma ExitLifeKept(s: Session, a: ExitAction)
    requires LifeInv(s) && ExitEnabled(s, a)
    ensures LifeInv(ApplyExit(s, a))
  {}

  // ----- inputs

  lemma SkippedAccounted(p: Plan, b: Inbox, turns: seq<Turn>)
    requires Accounted(b) && AnsweredInv(p, b, turns) && b.queue != [] && b.dropped == [] && b.current.None?
    requires Route(p, b.queue[0]).None?
    ensures Accounted(Skipped(b)) && AnsweredInv(p, Skipped(b), turns)
  {
    RoutedAppend(p, b.consumed, b.queue[0]);
    assert b.queue == [b.queue[0]] + b.queue[1..];
  }

  lemma DequeuedAccounted(b: Inbox)
    requires Accounted(b) && b.queue != [] && b.current.None?
    ensures Accounted(Dequeued(b))
  {
    assert b.queue == [b.queue[0]] + b.queue[1..];
  }

  lemma AnsweredAccounted(p: Plan, b: Inbox, turns: seq<Turn>)
    requires Accounted(b) && AnsweredInv(p, b, turns) && b.current.Some? && b.dropped == []
    requires turns != [] && CompletedTurn(turns[|turns| - 1])
    requires Route(p, b.current.value) == Some(turns[|turns| - 1].agent)
    ensures Accounted(Answered(b, |turns| - 1)) && AnsweredInv(p, Answered(b, |turns| - 1), turns)
  {
    RoutedAppend(p, b.consumed, b.current.value);
  }

  /** Completed turns stay what they are, so what they answered stands. */
  lemma AnsweredMono(p: Plan, b: Inbox, t: seq<Turn>, u: seq<Turn>)
    requires AnsweredInv(p, b, t) && |t| <= |u|
    requires forall i :: 0 <= i < |t| && CompletedTurn(t[i]) ==> u[i] == t[i]
    ensures AnsweredInv(p, b, u)
  {}

  lemma UnwindInbox(s: Session, ending: Ending)
    requires InboxInv(s) && InRun(s.pc) && !s.life.status.Done? && (ending.Normal? ==> s.inbox.queue == [] && !s.pc.Directed?)
    ensures InboxInv(Unwind(s, ending))
  {}

  lemma PostInboxKept(s: Session, time: string, human: bool, input: Input)
    requires LogInv(s) && FlagInv(s) && InboxInv(s) && PostAccepted(s) && KnownTarget(s.plan, input)
    ensures InboxInv(Posted(s, time, human, input))
  {}

  lemma SkipInboxKept(s: Session)
    requires InboxInv(s) && FlagInv(s) && s.inbox.queue != [] && (s.pc.Between? || s.pc.Waiting?)
    requires Route(s.plan, s.inbox.queue[0]).None?
    ensures InboxInv(s.(inbox := Skipped(s.inbox)))
  {
    assert !s.life.status.Done? && s.inbox.current.None? && s.inbox.dropped == [];
    hide FlagInv;
    SkippedAccounted(s.plan, s.inbox, s.work.turns);
  }

  lemma TakenRouted(s: Session, note: Stamp, continues: bool)
    requires InputEnabled(s, TakeInput(note, continues)) && Route(s.plan, s.inbox.queue[0]).Some?
    ensures var t := Taken(s, note, continues);
            && t.plan == s.plan && t.life == s.life && t.inbox == Dequeued(s.inbox) && t.pc.Directed?
            && |t.work.turns| == |s.work.turns| + 1 && t.work.turns[..|s.work.turns|] == s.work.turns
            && t.work.turns[|s.work.turns|].directed
            && Some(t.work.turns[|s.work.turns|].agent) == Route(s.plan, s.inbox.queue[0])
  {
    hide Append, BuildPrompt;
  }

  lemma RoutedInboxKept(s: Session, t: Session)
    requires InboxInv(s) && InRun(s.pc) && !s.pc.Directed? && !s.pc.Closing? && !s.life.status.Done? && s.inbox.queue != []
    requires t.plan == s.plan && t.life == s.life && t.inbox == Dequeued(s.inbox) && t.pc.Directed?
    requires |t.work.turns| == |s.work.turns| + 1 && t.work.turns[..|s.work.turns|] == s.work.turns
    requires t.work.turns[|s.work.turns|].directed
    requires Some(t.work.turns[|s.work.turns|].agent) == Route(s.plan, s.inbox.queue[0])
    ensures InboxInv(t)
  {
    var last := t.work.turns[|s.work.turns|];
    assert t.work.turns == s.work.turns + [last];
    DequeuedAccounted(s.inbox);
    AnsweredMono(s.plan, s.inbox, s.work.turns, t.work.turns);
    DirectedAppend(s.work.turns, last);
    hide DirectedTurns, Routed, Accounted;
  }

  lemma TakeInboxKept(s: Session, note: Stamp, continues: bool)
    requires InboxInv(s) && FlagInv(s) && InputEnabled(s, TakeInput(note, continues))
    ensures InboxInv(Taken(s, note, continues))
  {
    if Route(s.plan, s.inbox.queue[0]).None? {
      hide InboxInv, FlagInv, Route;
      SkipInboxKept(s);
    } else {
      assert !s.life.status.Done?;
      hide InboxInv, FlagInv, Route, Taken, Dequeued;
      TakenRouted(s, note, continues);
      RoutedInboxKept(s, Taken(s, note, continues));
    }
  }

  lemma LoopInboxKept(s: Session, a: InputAction)
    requires FlagInv(s) && InboxInv(s) && InputEnabled(s, a) && !a.Post? && !a.TakeInput?
    ensures InboxInv(ApplyInput(s, a))
  {}

  lemma PlannedInboxKept(s: Session, note: Stamp, continues: bool)
    requires FlagInv(s) && InboxInv(s) && StageEnabled(s, StartPlanned(note, continues))
    ensures InboxInv(PlannedStarted(s, note, continues))
  {
    var t := PlannedStarted(s, note, continues);
    AnsweredMono(s.plan, s.inbox, s.work.turns, t.work.turns);
    DirectedAppend(s.work.turns, t.work.turns[|s.work.turns|]);
  }

  lemma NoneAnswered(p: Plan, pc: Pc, b: Inbox, turns: seq<Turn>, where: Pc)
    requires AnsweredInv(p, b, []) && DirectedInv(p, pc, b, []) && !pc.Directed? && !where.Directed?
    requires DirectedTurns(turns) == [] && b.dropped == []
    ensures AnsweredInv(p, b, turns) && DirectedInv(p, where, b, turns)
  {
    hide Routed, Route;
    assert b.answeredBy == DirectedTurns([]);
  }

  lemma ParallelInboxKept(s: Session, note: Stamp)
    requires TurnInv(s) && FlagInv(s) && InboxInv(s) && StageEnabled(s, StartParallel(note))
    ensures InboxInv(ParallelStarted(s, note))
  {
    hide Append, MarkAll, AnsweredInv, DirectedInv, DirectedTurns, LogInv;
    var t := ParallelStarted(s, note);
    assert s.work.turns == [];
    NoneDirected(t.work.turns);
    NoneAnswered(s.plan, s.pc, s.inbox, t.work.turns, t.pc);
  }

  lemma AnswerInboxKept(s: Session)
    requires InboxInv(s) && s.pc.Directed? && LastFinished(s.plan, s.work.turns) && !s.life.status.Done?
    requires CompletedTurn(s.work.turns[|s.work.turns| - 1])
    ensures InboxInv(s.(pc := Waiting, inbox := Answered(s.inbox, |s.work.turns| - 1)))
  {
    AnsweredAccounted(s.plan, s.inbox, s.work.turns);
  }

  lemma FinishTurnInboxKept(s: Session)
    requires InboxInv(s) && FlagInv(s) && (s.pc.Planned? || s.pc.Directed?) && LastFinished(s.plan, s.work.turns)
    ensures InboxInv(TurnFinished(s))
  {
    if EndingOf(s).Some? {
      UnwindInbox(s.(turnActive := false), EndingOf(s).value);
    } else if s.pc.Directed? {
      AnswerInboxKept(s);
    }
  }

  lemma FinishParallelInboxKept(s: Session, note: Stamp)
    requires InboxInv(s) && FlagInv(s) && s.pc.Parallel?
    ensures InboxInv(ParallelFinished(s, note))
  {
    hide SomeAccepted, SomeRefused, Append, Accounted, AnsweredInv, Route, KnownTarget;
    var t := ParallelFinished(s, note);
    if t.pc.Unwinding? {
      UnwindInbox(s.(turnActive := false), t.pc.ending);
    }
  }

  lemma OtherInboxKept(s: Session, a: StageAction)
    requires FlagInv(s) && InboxInv(s) && StageEnabled(s, a) && (a.Open? || a.FinishStages?)
    ensures InboxInv(ApplyStage(s, a))
  {
    if a.FinishStages? && !s.plan.interactive {
      UnwindInbox(s, Normal);
    }
  }

  /** Turns that are only moved on leave the books of the posts as they are. */
  lemma TurnsMoveOn(s: Session, t: Session)
    requires InboxInv(s) && t.plan == s.plan && t.pc == s.pc && t.inbox == s.inbox && t.life == s.life
    requires |t.work.turns| == |s.work.turns|
    requires forall i :: 0 <= i < |s.work.turns| ==>
               && t.work.turns[i].directed == s.work.turns[i].directed && t.work.turns[i].agent == s.work.turns[i].agent
               && (CompletedTurn(s.work.turns[i]) ==> t.work.turns[i] == s.work.turns[i])
    ensures InboxInv(t)
  {
    DirectedSame(s.work.turns, t.work.turns);
    AnsweredMono(s.plan, s.inbox, s.work.turns, t.work.turns);
    hide DirectedTurns, AnsweredInv, Accounted;
  }

  lemma TurnInboxKept(s: Session, a: TurnAction)
    requires InboxInv(s) && TurnEnabled(s, a)
    ensures InboxInv(ApplyTurn(s, a))
  {
    hide InboxInv, Append, Recordable, WellFormedOutcome, RecordOf, Upsert, TurnAnswer;
    TurnsMoveOn(s, ApplyTurn(s, a));
  }

  lemma AbortInboxKept(s: Session, broken: bool, clears: bool)
    requires FlagInv(s) && InboxInv(s) && InRun(s.pc)
    ensures InboxInv(Aborted(s, broken, clears))
  {
    var turns := GiveUpAll(s.work.turns);
    DirectedSame(s.work.turns, turns);
    AnsweredMono(s.plan, s.inbox, s.work.turns, turns);
  }

  lemma ExitInboxKept(s: Session, a: ExitAction)
    requires InboxInv(s) && ExitEnabled(s, a) && !a.Restart? && !a.Abort?
    ensures InboxInv(ApplyExit(s, a))
  {}

  // ----- ledger and committed outcomes

  lemma PassiveBoth(p: Plan, log: Log, w: Work, e: Event)
    requires Lockstep(log) && LedgerInv(log, w) && CommitInv(p, w, log.jsonl) && Passive(e)
    ensures Lockstep(Append(log, e)) && LedgerInv(Append(log, e), w) && CommitInv(p, w, Append(log, e).jsonl)
  {
    PassiveAppend(log, w, e);
  }

  lemma OpenedLedger(s: Session, note: Stamp, task: string)
    requires LogInv(s) && TurnInv(s) && s.pc.Opening? && LedgerInv(s.log, s.work) && CommitInv(s.plan, s.work, s.log.jsonl)
    ensures var t := Opened(s, note, task);
            LedgerInv(t.log, t.work) && CommitInv(t.plan, t.work, t.log.jsonl)
  {
    var log := s.log.(open := true);
    PassiveBoth(s.plan, log, s.work, TaskEvent(note.time, task));
    PassiveBoth(s.plan, Append(log, TaskEvent(note.time, task)), s.work, NoteOf(note, None));
  }

  lemma MembersAllocated(p: Plan, log: Log, w: Work, members: seq<AgentId>, stageIndex: int)
    requires LedgerInv(log, w) && CommitInv(p, w, log.jsonl) && w.turns == []
    requires forall k :: 0 <= k < |members| ==> members[k] != ""
    ensures var v := w.(turns := AllocateAll(members, stageIndex));
            LedgerInv(log, v) && CommitInv(p, v, log.jsonl)
  {
    var added := AllocateAll(members, stageIndex);
    forall a | a != "" ensures PendingOf(Derive(log.events), a) == EMPTY {
      assert Quiet(w.turns, a);
    }
    forall i | 0 <= i < |added| ensures SpanAgrees(Derive(log.events), log.transcript, added[i]) {}
  }

  lemma MemberLedger(p: Plan, log: Log, w: Work, i: nat)
    requires LedgerInv(log, w) && CommitInv(p, w, log.jsonl) && i < |w.turns| && w.turns[i].phase.Allocated?
    ensures var v := w.(turns := w.turns[i := w.turns[i].(span := |log.transcript|, phase := InFlight)]);
            LedgerInv(log, v) && CommitInv(p, v, log.jsonl)
  {
    var turns := w.turns[i := w.turns[i].(span := |log.transcript|, phase := InFlight)];
    var f := Derive(log.events);
    forall j | 0 <= j < |turns| ensures SpanAgrees(f, log.transcript, turns[j]) {
      assert SpanAgrees(f, log.transcript, w.turns[j]);
    }
    forall a | a != "" && Quiet(turns, a) ensures PendingOf(f, a) == EMPTY {
      assert turns[i].agent == a ==> CompletedTurn(turns[i]);
      QuietSame(w.turns, turns, a, i);
    }
  }

  /** Changing one turn that is not the agent's leaves the agent as quiet as it was. */
  lemma QuietSame(t: seq<Turn>, u: seq<Turn>, a: AgentId, i: nat)
    requires Quiet(u, a) && i < |t| == |u| && u[i].agent != a && t[i].agent == u[i].agent && u == t[i := u[i]]
    ensures Quiet(t, a)
  {
    forall j | 0 <= j < |t| && t[j].agent == a ensures CompletedTurn(t[j]) {
      assert u[j] == t[j];
    }
  }

  lemma ArbitrateLedger(p: Plan, log: Log, w: Work, i: nat, o: TurnOutcome)
    requires LedgerInv(log, w) && CommitInv(p, w, log.jsonl) && i < |w.turns| && w.turns[i].phase.InFlight?
    ensures var t := w.turns[i];
            var answer := if o.kind.Completed? then TurnAnswer(log.transcript, t.span, t.agent) else None;
            var v := w.(turns := w.turns[i := t.(phase := Arbitrated(o, answer))]);
            LedgerInv(log, v) && CommitInv(p, v, log.jsonl)
  {
    var t := w.turns[i];
    var answer := if o.kind.Completed? then TurnAnswer(log.transcript, t.span, t.agent) else None;
    var turns := w.turns[i := t.(phase := Arbitrated(o, answer))];
    var f := Derive(log.events);
    forall j | 0 <= j < |turns| ensures SpanAgrees(f, log.transcript, turns[j]) {
      assert SpanAgrees(f, log.transcript, w.turns[j]);
    }
    forall a | a != "" && Quiet(turns, a) ensures PendingOf(f, a) == EMPTY {
      assert turns[i].agent == a ==> CompletedTurn(turns[i]);
      QuietSame(w.turns, turns, a, i);
    }
  }

  /** An event that closes no turn keeps the fold and the scan of a span together, if it may still count for the span. */
  lemma SpanGrows(f: Fold, t: seq<Event>, e: Event, turn: Turn)
    requires SpanAgrees(f, t, turn) && turn.agent != "" && e.boundary.None?
    requires turn.phase.InFlight? || !Usable(e, turn.agent)
    ensures SpanAgrees(FoldStep(f, |t|, e), t + [e], turn)
  {
    PendingStep(f, |t|, e, turn.agent);
    if OpenSpan(turn) {
      ScanAppend(t, e, turn.span, turn.agent);
    }
    hide FoldStep, Scan, Usable, Entry;
  }

  /** Who may still emit has no other open turn, and is not quiet. */
  lemma OnlyOwnTurn(turns: seq<Turn>, i: nat, j: nat)
    requires AgentOnce(turns) && i < |turns| && j < |turns| && MayEmit(turns[i]) && turns[j].agent == turns[i].agent
    ensures turns[j].phase.InFlight? || !OpenSpan(turns[j])
    ensures !turns[j].phase.Allocated?
  {}

  lemma OtherPending(f: Fold, id: nat, e: Event, a: AgentId)
    requires a != "" && e.boundary.None? && e.agent != Some(a)
    ensures PendingOf(FoldStep(f, id, e), a) == PendingOf(f, a)
  {}

  lemma QuietOther(turns: seq<Turn>, i: nat, a: AgentId)
    requires i < |turns| && MayEmit(turns[i]) && Quiet(turns, a)
    ensures turns[i].agent != a
  {}

  /** A runner's event goes to its own agent's span, whether the turn is still watched or was given up. */
  lemma EmitLedger(log: Log, w: Work, i: nat, e: Event)
    requires Lockstep(log) && LedgerInv(log, w) && AgentOnce(w.turns)
    requires i < |w.turns| && MayEmit(w.turns[i]) && e.agent == Some(w.turns[i].agent) && e.boundary.None?
    requires (forall j :: 0 <= j < |w.turns| ==> w.turns[j].agent != "") && (log.open || Closed(w.turns))
    ensures LedgerInv(Append(log, e), w)
  {
    if log.open {
      var t := log.transcript;
      var f, g := Derive(log.events), FoldStep(Derive(log.events), |t|, e);
      DeriveAppend(log.events, e);
      hide Derive, Scan, Lockstep, AgentOnce, CutAll, TurnAnswer, Closed;
      forall j | 0 <= j < |w.turns| ensures SpanAgrees(g, t + [e], w.turns[j]) {
        assert SpanAgrees(f, t, w.turns[j]);
        if w.turns[j].agent == w.turns[i].agent {
          OnlyOwnTurn(w.turns, i, j);
        }
        if OpenSpan(w.turns[j]) || w.turns[j].phase.Allocated? {
          SpanGrows(f, t, e, w.turns[j]);
        }
      }
      forall a | a != "" && Quiet(w.turns, a) ensures PendingOf(g, a) == EMPTY {
        QuietOther(w.turns, i, a);
        OtherPending(f, |t|, e, a);
      }
    }
  }

  lemma CutChosen(s: Slot)
    ensures Chosen(CutSlot(s)) == CutOption(Chosen(s))
  {}

  /** Committing a turn moves its span's choice into both ledgers alike, or into neither. */
  lemma CommitLedger(p: Plan, log: Log, w: Work, i: nat, note: Stamp)
    requires Lockstep(log) && log.open && LedgerInv(log, w) && AgentOnce(w.turns)
    requires i < |w.turns| && Committable(p, w.turns[i], i) && WellFormedTurn(p, w.turns[i]) && w.turns[i].agent != ""
    ensures LedgerInv(Append(log, Boundary(note.time, note.text, RecordOf(p, w.turns[i], i))), CommitWork(p, w, i))
  {
    var turn, a := w.turns[i], w.turns[i].agent;
    var e := Boundary(note.time, note.text, RecordOf(p, turn, i));
    var t, u := log.transcript, log.transcript + [e];
    var f, g := Derive(log.events), Derive(log.events + [e]);
    var v := CommitWork(p, w, i);
    DeriveAppend(log.events, e);
    assert SpanAgrees(f, t, turn);
    if turn.phase.outcome.kind.Completed? {
      CutChosen(Scan(t, turn.span, |t|, a));
    }
    if turn.phase.answer.Some? {
      CutUpsert(w.ledger, turn.phase.answer.value);
    }
    assert CutAll(v.ledger) == g.ledger;
    hide Derive, Scan, CutAll, Lookup;
    forall b | b != "" ensures PendingOf(g, b) == if b == a then EMPTY else PendingOf(f, b) {
      PendingStep(f, |t|, e, b);
    }
    forall j | 0 <= j < |v.turns| ensures SpanAgrees(g, u, v.turns[j]) {
      assert SpanAgrees(f, t, w.turns[j]);
      if j != i && OpenSpan(w.turns[j]) {
        ScanAppend(t, e, w.turns[j].span, w.turns[j].agent);
      }
    }
    forall b | b != "" && Quiet(v.turns, b) ensures PendingOf(g, b) == EMPTY {
      if b != a {
        QuietSame(w.turns, v.turns, b, i);
      }
    }
  }

  lemma {:induction false} CommittedTurnsKept(w: Work, v: Work, i: nat)
    requires i < |w.turns| == |v.turns| && v.committed == w.committed + [i]
    requires forall j :: 0 <= j < |w.turns| && j != i ==> v.turns[j] == w.turns[j]
    requires forall j :: 0 <= j < |w.turns| && w.turns[j].phase.Settled? ==> j in w.committed
    ensures forall j :: 0 <= j < |v.turns| && v.turns[j].phase.Settled? ==> j in v.committed
  {
    assert v.committed[|w.committed|] == i;
    forall j | 0 <= j < |v.turns| && v.turns[j].phase.Settled? ensures j in v.committed {
      if j != i {
        var k :| 0 <= k < |w.committed| && w.committed[k] == j;
        assert v.committed[k] == j;
      }
    }
  }

  /** The record that a commit publishes is well formed: the constructor accepted it. */
  lemma RecordAccepted(p: Plan, t: Turn, i: nat)
    requires Committable(p, t, i) && WellFormedOutcome(t.phase.outcome)
    ensures WellFormedRecord(RecordOf(p, t, i))
  {}

  /** The outcomes stay in step with the committed turns when one more is committed. */
  lemma {:induction false} RecordsStep(p: Plan, w: Work, i: nat, record: TurnRecord, jsonl: seq<Event>)
    requires CommitInv(p, w, jsonl) && i < |w.turns| && Committable(p, w.turns[i], i) && record == RecordOf(p, w.turns[i], i)
    requires WellFormedRecord(record)
    ensures var v := CommitWork(p, w, i);
            && |v.committed| == |v.outcomes|
            && (forall k :: 0 <= k < |v.committed| ==>
                  && v.committed[k] < |v.turns| && v.turns[v.committed[k]].phase.Settled? && v.turns[v.committed[k]].agent in p.backends
                  && v.outcomes[k] == RecordOf(p, v.turns[v.committed[k]], v.committed[k]) && WellFormedRecord(v.outcomes[k]))
            && (forall j, k :: 0 <= j < k < |v.committed| ==> v.committed[j] != v.committed[k])
  {
    hide WellFormedRecord, Recordable, Boundaries, Upsert, TurnId;
    var v := CommitWork(p, w, i);
    forall k | 0 <= k < |v.committed|
      ensures v.committed[k] < |v.turns| && v.turns[v.committed[k]].phase.Settled? && v.turns[v.committed[k]].agent in p.backends
      ensures v.outcomes[k] == RecordOf(p, v.turns[v.committed[k]], v.committed[k]) && WellFormedRecord(v.outcomes[k])
    {
      if k < |w.committed| {
        assert v.committed[k] == w.committed[k] && v.outcomes[k] == w.outcomes[k];
      }
    }
  }

  lemma {:induction false} CommitRecords(p: Plan, log: Log, w: Work, i: nat, note: Stamp)
    requires log.open && CommitInv(p, w, log.jsonl) && i < |w.turns| && Committable(p, w.turns[i], i)
    requires WellFormedOutcome(w.turns[i].phase.outcome)
    ensures CommitInv(p, CommitWork(p, w, i), Append(log, Boundary(note.time, note.text, RecordOf(p, w.turns[i], i))).jsonl)
  {
    hide WellFormedRecord, WellFormedOutcome, Recordable, Boundaries, RecordOf, Upsert;
    var record := RecordOf(p, w.turns[i], i);
    RecordAccepted(p, w.turns[i], i);
    BoundariesAppend(log.jsonl, Boundary(note.time, note.text, record));
    RecordsStep(p, w, i, record, log.jsonl);
    CommittedTurnsKept(w, CommitWork(p, w, i), i);
  }

  lemma {:induction false} RefuseLedger(p: Plan, log: Log, w: Work, i: nat)
    requires LedgerInv(log, w) && CommitInv(p, w, log.jsonl) && i < |w.turns| && w.turns[i].phase.Arbitrated?
    ensures var v := w.(turns := w.turns[i := w.turns[i].(phase := Dropped)]);
            LedgerInv(log, v) && CommitInv(p, v, log.jsonl)
  {
    var turns := w.turns[i := w.turns[i].(phase := Dropped)];
    var f := Derive(log.events);
    hide WellFormedRecord;
    forall j | 0 <= j < |turns| ensures SpanAgrees(f, log.transcript, turns[j]) {
      assert SpanAgrees(f, log.transcript, w.turns[j]);
    }
    forall a | a != "" && Quiet(turns, a) ensures PendingOf(f, a) == EMPTY {
      assert turns[i].agent == a ==> CompletedTurn(turns[i]);
      QuietSame(w.turns, turns, a, i);
    }
  }

  lemma GiveUpLedger(p: Plan, log: Log, w: Work)
    requires LedgerInv(log, w) && CommitInv(p, w, log.jsonl)
    requires forall i :: 0 <= i < |w.turns| ==> !w.turns[i].phase.Arbitrated?
    ensures var v := w.(turns := GiveUpAll(w.turns));
            LedgerInv(log, v) && CommitInv(p, v, log.jsonl)
  {
    var turns := GiveUpAll(w.turns);
    var f := Derive(log.events);
    forall a | a != "" && Quiet(turns, a) ensures PendingOf(f, a) == EMPTY {
      forall i | 0 <= i < |w.turns| && w.turns[i].agent == a ensures CompletedTurn(w.turns[i]) {
        assert CompletedTurn(turns[i]);
      }
    }
  }

  lemma FaultLedger(log: Log, w: Work, time: string)
    requires LedgerInv(log, w) && Closed(w.turns)
    ensures LedgerInv(log.(events := log.events + [FaultEvent(time)]), w)
  {
    DeriveAppend(log.events, FaultEvent(time));
    assert FoldStep(Derive(log.events), |log.events|, FaultEvent(time)) == Derive(log.events);
  }

  // ----- ledger, committed outcomes and prompts, action by action

  ghost predicate Books(p: Plan, log: Log, w: Work, q: Prompts, ledgerLive: bool) {
    && CommitInv(p, w, log.jsonl)
    && PromptInv(q, log.transcript)
    && (ledgerLive ==> LedgerInv(log, w))
  }

  ghost predicate BookInv(s: Session) { Books(s.plan, s.log, s.work, s.prompts, !s.pc.Restored?) }

  lemma NoteBooks(p: Plan, log: Log, w: Work, q: Prompts, e: Event)
    requires Lockstep(log) && Books(p, log, w, q, true) && Passive(e)
    ensures Lockstep(Append(log, e)) && Books(p, Append(log, e), w, q, true)
  {
    PassiveBoth(p, log, w, e);
    PromptsGrow(q, log.transcript, Append(log, e).transcript);
  }

  lemma BeginBooks(p: Plan, log: Log, w: Work, q: Prompts, t: Turn, continues: bool)
    requires Books(p, log, w, q, true) && t.agent != "" && AllCompleted(w.turns)
    requires t.phase.InFlight? && t.span == |log.transcript|
    ensures Books(p, log, w.(turns := w.turns + [t]), BuildPrompt(q, log.transcript, t.agent, continues), true)
  {
    PromptBuilt(q, log.transcript, t.agent, continues);
    TurnAdded(p, log, w, t);
  }

  lemma InputBooksKept(s: Session, a: InputAction)
    requires LogInv(s) && BookInv(s) && InputEnabled(s, a) && !a.TakeInput?
    ensures BookInv(ApplyInput(s, a))
  {
    match a
    case Post(time, human, input) => NoteBooks(s.plan, s.log, s.work, s.prompts, PostEvent(time, human, input));
    case CloseSession(note) =>
      NoteBooks(s.plan, s.log, s.work, s.prompts, NoteOf(note, None));
      NoteBooks(s.plan, Append(s.log, NoteOf(note, None)), s.work, s.prompts, Summary(note));
    case _ =>
  }

  /** Note the turn, build its prompt and open it: the common start of planned and directed turns. */
  lemma NotedTurnBooks(s: Session, note: Stamp, a: AgentId, stageIndex: int, directed: bool, continues: bool)
    requires Lockstep(s.log) && Books(s.plan, s.log, s.work, s.prompts, true)
    requires a != "" && AllCompleted(s.work.turns)
    ensures var t := BeginTurn(Emit(s, NoteOf(note, Some(a))), a, stageIndex, directed, continues);
            Books(t.plan, t.log, t.work, t.prompts, true)
  {
    var log := Append(s.log, NoteOf(note, Some(a)));
    NoteBooks(s.plan, s.log, s.work, s.prompts, NoteOf(note, Some(a)));
    BeginBooks(s.plan, log, s.work, s.prompts, Turn(a, stageIndex, |log.transcript|, directed, InFlight), continues);
  }

  lemma TakeBooksKept(s: Session, note: Stamp, continues: bool)
    requires LogInv(s) && TurnInv(s) && BookInv(s) && InputEnabled(s, TakeInput(note, continues))
    requires KnownTarget(s.plan, s.inbox.queue[0])
    ensures BookInv(Taken(s, note, continues))
  {
    var route := Route(s.plan, s.inbox.queue[0]);
    if route.Some? {
      RouteIsMember(s.plan, s.inbox.queue[0]);
      InteractivePlan(s.plan);
      NotedTurnBooks(s, note, route.value, |s.work.turns| + 1, true, continues);
    }
  }

  lemma NextAgent(s: Session)
    requires TurnInv(s) && s.pc.Between? && s.pc.next < |s.plan.stages| && |s.plan.stages[s.pc.next]| == 1
    ensures s.plan.stages[s.pc.next][0] != "" && AllCompleted(s.work.turns)
  {}

  lemma PlannedIsBegun(s: Session, note: Stamp, continues: bool)
    requires s.pc.Between? && s.pc.next < |s.plan.stages| && s.plan.stages[s.pc.next] != []
    ensures var a := s.plan.stages[s.pc.next][0];
            var t := BeginTurn(Emit(s, NoteOf(note, Some(a))), a, s.pc.next + 1, false, continues);
            PlannedStarted(s, note, continues) == t.(pc := Planned(s.pc.next))
  {
    hide BeginTurn, Emit, NoteOf;
  }

  lemma BooksMove(t: Session, pc: Pc)
    requires Books(t.plan, t.log, t.work, t.prompts, true) && !pc.Restored?
    ensures BookInv(t.(pc := pc))
  {
    hide CommitInv, LedgerInv, PromptInv;
  }

  lemma PlannedBooksKept(s: Session, note: Stamp, continues: bool)
    requires Lockstep(s.log) && Books(s.plan, s.log, s.work, s.prompts, true) && AllCompleted(s.work.turns)
    requires s.pc.Between? && s.pc.next < |s.plan.stages| && s.plan.stages[s.pc.next] != []
    requires s.plan.stages[s.pc.next][0] != ""
    ensures BookInv(PlannedStarted(s, note, continues))
  {
    hide *;
    var a := s.plan.stages[s.pc.next][0];
    var t := BeginTurn(Emit(s, NoteOf(note, Some(a))), a, s.pc.next + 1, false, continues);
    NotedTurnBooks(s, note, a, s.pc.next + 1, false, continues);
    PlannedIsBegun(s, note, continues);
    BooksMove(t, Planned(s.pc.next));
  }

  lemma Open(s: Session)
    requires LogInv(s) && InRun(s.pc)
    ensures Lockstep(s.log) && (!s.pc.Opening? ==> s.log.open)
  {}

  lemma NoTurnsYet(s: Session)
    requires TurnInv(s) && s.pc.Between? && s.pc.next < |s.plan.stages| && |s.plan.stages[s.pc.next]| > 1
    ensures s.work.turns == [] && forall k :: 0 <= k < |s.plan.stages[s.pc.next]| ==> s.plan.stages[s.pc.next][k] != ""
  {}

  lemma ParallelBooksKept(s: Session, note: Stamp)
    requires LogInv(s) && TurnInv(s) && BookInv(s) && StageEnabled(s, StartParallel(note))
    ensures BookInv(ParallelStarted(s, note))
  {
    hide LogInv, TurnInv, Lockstep, CommitInv, LedgerInv, PromptInv, Append, MarkAll;
    NoTurnsYet(s);
    Open(s);
    var members := s.plan.stages[s.pc.next];
    var added := AllocateAll(members, s.pc.next + 1);
    var log := Append(s.log, NoteOf(note, None));
    NoteBooks(s.plan, s.log, s.work, s.prompts, NoteOf(note, None));
    AllMarked(s.prompts, log.transcript, members);
    MembersAllocated(s.plan, log, s.work, members, s.pc.next + 1);
    assert s.work.turns + added == added;
  }

  lemma OpenBooksKept(s: Session, note: Stamp, task: string)
    requires LogInv(s) && TurnInv(s) && BookInv(s) && s.pc.Opening?
    ensures BookInv(Opened(s, note, task))
  {
    OpenedLedger(s, note, task);
    PromptsGrow(s.prompts, [], Opened(s, note, task).log.transcript);
  }

  lemma FinishTurnBooksKept(s: Session)
    requires BookInv(s) && (s.pc.Planned? || s.pc.Directed?) && LastFinished(s.plan, s.work.turns)
    ensures BookInv(TurnFinished(s))
  {}

  lemma BooksUnwind(t: Session, ending: Ending)
    requires Books(t.plan, t.log, t.work, t.prompts, true)
    ensures BookInv(Unwind(t, ending))
  {
    hide CommitInv, LedgerInv, PromptInv;
  }

  lemma FinishParallelBooksKept(s: Session, note: Stamp)
    requires Lockstep(s.log) && Books(s.plan, s.log, s.work, s.prompts, true) && s.pc.Parallel?
    ensures BookInv(ParallelFinished(s, note))
  {
    var idle := s.(turnActive := false);
    var t := Emit(idle, NoteOf(note, None));
    NoteBooks(s.plan, s.log, s.work, s.prompts, NoteOf(note, None));
    BooksUnwind(idle, CancelledRun);
    BooksUnwind(idle, BrokenRun);
    assert Books(t.plan, t.log, t.work, t.prompts, true) by {
      hide Books, Append;
    }
    BooksMove(t, Between(s.pc.stage + 1));
    BooksUnwind(t, FailedRun(Bare(ParallelStageNoAcceptedMember, Some(s.pc.stage + 1))));
    hide Books, BookInv, SomeAccepted, SomeRefused, Emit, Unwind, Lockstep, Bare;
  }

  lemma FinishStagesBooksKept(s: Session, note: Stamp)
    requires LogInv(s) && BookInv(s) && s.pc.Between?
    ensures BookInv(StagesFinished(s, note))
  {
    assert Lockstep(s.log);
    hide LogInv, Lockstep, CommitInv, PromptInv, LedgerInv, Append;
    NoteBooks(s.plan, s.log, s.work, s.prompts, Summary(note));
  }

  lemma EmitterFacts(s: Session)
    requires LogInv(s) && TurnInv(s)
    ensures forall j :: 0 <= j < |s.work.turns| ==> s.work.turns[j].agent != ""
    ensures Lockstep(s.log) && AgentOnce(s.work.turns)
    ensures InRun(s.pc) && !s.pc.Opening? ==> s.log.open
    ensures s.pc.Unwinding? || s.pc.Ended? ==> Closed(s.work.turns)
    ensures s.pc.Opening? ==> s.work.turns == []
  {
    forall j | 0 <= j < |s.work.turns| ensures s.work.turns[j].agent != "" {
      assert WellFormedTurn(s.plan, s.work.turns[j]);
    }
  }

  lemma SameRecords(p: Plan, w: Work, l: seq<Event>, m: seq<Event>)
    requires CommitInv(p, w, l) && Boundaries(m) == Boundaries(l)
    ensures CommitInv(p, w, m)
  {
    hide Boundaries, RecordOf, WellFormedRecord;
  }

  lemma RunnerBooksKept(s: Session, i: nat, e: Event)
    requires LogInv(s) && TurnInv(s) && BookInv(s) && TurnEnabled(s, RunnerEmits(i, e))
    ensures BookInv(Emit(s, e))
  {
    hide LogInv, TurnInv, CommitInv, PromptInv, LedgerInv, Lockstep, AgentOnce, Closed;
    EmitterFacts(s);
    EmitLedger(s.log, s.work, i, e);
    PromptsGrow(s.prompts, s.log.transcript, Append(s.log, e).transcript);
    BoundariesAppend(s.log.jsonl, e);
    SameRecords(s.plan, s.work, s.log.jsonl, Append(s.log, e).jsonl);
  }

  lemma TurnBooksKept(s: Session, a: TurnAction)
    requires LogInv(s) && TurnInv(s) && BookInv(s) && TurnEnabled(s, a) && !a.Commit?
    ensures BookInv(ApplyTurn(s, a))
  {
    match a {
      case RunnerEmits(i, e) => RunnerBooksKept(s, i, e);
      case _ =>
        hide LogInv, TurnInv, CommitInv, LedgerInv, PromptInv, WellFormedOutcome, Recordable;
        match a {
          case StartMember(i) => MemberLedger(s.plan, s.log, s.work, i);
          case Arbitrate(i, o) => ArbitrateLedger(s.plan, s.log, s.work, i, o);
          case Refuse(i) => RefuseLedger(s.plan, s.log, s.work, i);
        }
    }
  }

  lemma CommitBooksKept(s: Session, i: nat, note: Stamp)
    requires LogInv(s) && TurnInv(s) && BookInv(s) && TurnEnabled(s, Commit(i, note))
    ensures BookInv(Committed(s, i, note))
  {
    assert WellFormedTurn(s.plan, s.work.turns[i]);
    CommitLedger(s.plan, s.log, s.work, i, note);
    CommitRecords(s.plan, s.log, s.work, i, note);
    PromptsGrow(s.prompts, s.log.transcript, Committed(s, i, note).log.transcript);
  }

  lemma ExitBooksKept(s: Session, a: ExitAction)
    requires LogInv(s) && TurnInv(s) && BookInv(s) && ExitEnabled(s, a)
    ensures BookInv(ApplyExit(s, a))
  {
    match a
    case Abort(_, _) => GiveUpLedger(s.plan, s.log, s.work);
    case Conclude(time) => FaultLedger(s.log, s.work, time);
    case _ =>
  }

  // ----- the step

  lemma HeadIsKnown(s: Session)
    requires InboxInv(s) && s.inbox.queue != []
    ensures KnownTarget(s.plan, s.inbox.queue[0])
  {}

  lemma InputKept(s: Session, a: InputAction)
    requires Inv(s) && InputEnabled(s, a)
    ensures Inv(ApplyInput(s, a))
  {
    hide LogInv, TurnInv, CommitInv, PromptInv, LifeInv, LedgerInv, InboxInv, FlagInv;
    if a.TakeInput? {
      HeadIsKnown(s);
      TakeTurnsKept(s, a.note, a.continues);
      TakeInboxKept(s, a.note, a.continues);
      TakeBooksKept(s, a.note, a.continues);
    } else {
      LoopTurnsKept(s, a);
      InputBooksKept(s, a);
      if a.Post? {
        PostInboxKept(s, a.time, a.human, a.input);
      } else {
        LoopInboxKept(s, a);
      }
    }
    InputLogKept(s, a);
    InputFlagsKept(s, a);
    InputLifeKept(s, a);
  }

  lemma FinishKept(s: Session, a: StageAction)
    requires Inv(s) && StageEnabled(s, a) && (a.FinishTurn? || a.FinishParallel?)
    ensures Inv(ApplyStage(s, a))
  {
    hide LogInv, TurnInv, CommitInv, PromptInv, LifeInv, LedgerInv, InboxInv, FlagInv;
    match a {
      case FinishTurn =>
        FinishTurnLogKept(s);
        FinishTurnTurnsKept(s);
        FinishTurnInboxKept(s);
        FinishTurnLifeKept(s);
        FinishTurnBooksKept(s);
      case FinishParallel(note) =>
        FinishParallelLogKept(s, note);
        FinishParallelTurnsKept(s, note);
        FinishParallelInboxKept(s, note);
        StageLifeKept(s, a);
        Open(s);
        assert Books(s.plan, s.log, s.work, s.prompts, true);
        FinishParallelBooksKept(s, note);
    }
    StageFlagsKept(s, a);
  }

  lemma StartKept(s: Session, a: StageAction)
    requires Inv(s) && StageEnabled(s, a) && (a.StartPlanned? || a.StartParallel?)
    ensures Inv(ApplyStage(s, a))
  {
    hide LogInv, TurnInv, CommitInv, PromptInv, LifeInv, LedgerInv, InboxInv, FlagInv;
    StageLogKept(s, a);
    StageLifeKept(s, a);
    StageFlagsKept(s, a);
    match a
    case StartPlanned(note, continues) =>
      PlannedTurnsKept(s, note, continues);
      PlannedInboxKept(s, note, continues);
      NextAgent(s);
      Open(s);
      assert Books(s.plan, s.log, s.work, s.prompts, true);
      PlannedBooksKept(s, note, continues);
    case StartParallel(note) =>
      ParallelTurnsKept(s, note);
      ParallelInboxKept(s, note);
      ParallelBooksKept(s, note);
  }

  lemma StageKept(s: Session, a: StageAction)
    requires Inv(s) && StageEnabled(s, a) && (a.Open? || a.FinishStages?)
    ensures Inv(ApplyStage(s, a))
  {
    hide LogInv, TurnInv, CommitInv, PromptInv, LifeInv, LedgerInv, InboxInv, FlagInv;
    StageLogKept(s, a);
    OtherTurnsKept(s, a);
    OtherInboxKept(s, a);
    StageLifeKept(s, a);
    StageFlagsKept(s, a);
    match a
    case Open(note, task) => OpenBooksKept(s, note, task);
    case FinishStages(note) => FinishStagesBooksKept(s, note);
  }

  lemma TurnKept(s: Session, a: TurnAction)
    requires Inv(s) && TurnEnabled(s, a)
    ensures Inv(ApplyTurn(s, a))
  {
    hide LogInv, TurnInv, CommitInv, PromptInv, LifeInv, LedgerInv, InboxInv, FlagInv;
    if a.Commit? {
      CommitBooksKept(s, a.turn, a.note);
    } else {
      TurnBooksKept(s, a);
    }
    TurnLogKept(s, a);
    TurnTurnsKept(s, a);
    TurnInboxKept(s, a);
    TurnFlagsKept(s, a);
    TurnLifeKept(s, a);
  }

  lemma ExitKept(s: Session, a: ExitAction)
    requires Inv(s) && ExitEnabled(s, a)
    ensures Inv(ApplyExit(s, a))
  {
    hide LogInv, TurnInv, CommitInv, PromptInv, LifeInv, LedgerInv, InboxInv, FlagInv;
    ExitLogKept(s, a);
    ExitTurnsKept(s, a);
    ExitBooksKept(s, a);
    ExitLifeKept(s, a);
    if a.Abort? {
      AbortInboxKept(s, a.broken, a.clears);
    } else if !a.Restart? && !s.pc.Restored? {
      ExitInboxKept(s, a);
    }
    if !s.pc.Restored? {
      ExitFlagsKept(s, a);
    }
  }

  /** Whatever happens next, the invariant holds afterwards. */
  lemma StepKept(s: Session, a: Action)
    requires Inv(s) && Enabled(s, a)
    ensures Inv(Apply(s, a))
  {
    hide Inv, TurnFinished, ParallelFinished;
    match a
    case OnInput(i) => InputKept(s, i);
    case OnStage(g) =>
      if g.FinishTurn? || g.FinishParallel? {
        FinishKept(s, g);
      } else if g.Open? || g.FinishStages? {
        StageKept(s, g);
      } else {
        StartKept(s, g);
      }
    case OnTurn(t) => TurnKept(s, t);
    case OnExit(e) => ExitKept(s, e);
  }
}
