/** The session protocol's promises, over every legal run from the start of a session. */
module SessionTheorems {
  import opened Common
  import opened Outcomes
  import opened Events
  import opened Answers
  import opened SessionProtocol
  import opened SessionInvariants
  import opened SessionSteps

  lemma {:induction false} RunKept(s: Session, run: seq<Action>)
    requires Inv(s) && Legal(s, run)
    ensures Inv(After(s, run))
    decreases run
  {
    if run != [] {
      StepKept(s, run[0]);
      RunKept(Apply(s, run[0]), run[1..]);
    }
  }

  lemma Reached(p: Plan, run: seq<Action>)
    requires WellFormedPlan(p) && Legal(Init(p), run)
    ensures Inv(After(Init(p), run))
  {
    InitInv(p);
    RunKept(Init(p), run);
  }

  /** The legal runs, from the start of a session, that lead to a state. */
  ghost function History(s: Session): iset<seq<Action>> {
    iset run | WellFormedPlan(s.plan) && Legal(Init(s.plan), run) && After(Init(s.plan), run) == s
  }

  lemma ReachableKept(s: Session)
    requires History(s) != iset{}
    ensures Inv(s)
  {
    var run :| run in History(s);
    Reached(s.plan, run);
  }

  lemma {:induction false} OneMoreAction(s: Session, run: seq<Action>, a: Action)
    requires Legal(s, run) && Enabled(After(s, run), a)
    ensures Legal(s, run + [a]) && After(s, run + [a]) == Apply(After(s, run), a)
    decreases run
  {
    hide Enabled, Apply;
    if run == [] {
      assert (run + [a])[1..] == [];
    } else {
      OneMoreAction(Apply(s, run[0]), run[1..], a);
      assert (run + [a])[1..] == run[1..] + [a];
    }
  }

  /** A state that some run leads to is followed by one. */
  lemma ReachableSteps(s: Session, a: Action)
    requires History(s) != iset{} && Enabled(s, a)
    ensures History(Apply(s, a)) != iset{}
  {
    var run :| run in History(s);
    StepPlanFixed(s, a);
    OneMoreAction(Init(s.plan), run, a);
    assert run + [a] in History(Apply(s, a)) by {
      hide Enabled, Apply, Legal, After, WellFormedPlan, Init;
    }
  }

  lemma StartReachable(p: Plan)
    requires WellFormedPlan(p)
    ensures History(Init(p)) != iset{}
  {
    assert Legal(Init(p), []) && After(Init(p), []) == Init(p);
    assert [] in History(Init(p));
  }

  // ----- answers

  lemma {:induction false} InertTail(t: seq<Event>, u: seq<Event>)
    requires t <= u && forall i :: |t| <= i < |u| ==> Inert(u[i])
    ensures Derive(u) == Derive(t)
    decreases |u|
  {
    if |t| < |u| {
      var front := u[..|u| - 1];
      InertTail(t, front);
      assert FoldStep(Derive(front), |front|, u[|u| - 1]) == Derive(front);
    } else {
      assert t == u;
    }
  }

  /**
   * The ledger a live session built turn by turn is the ledger that one pass over its
   * events derives, and the one that a pass over the log file derives after a restart:
   * same agents in the same order, same event ids, same final-over-last choice.
   */
  lemma LedgersAgree(p: Plan, run: seq<Action>, time: string)
    requires WellFormedPlan(p) && Legal(Init(p), run) && !After(Init(p), run).pc.Restored?
    ensures var s := After(Init(p), run);
            && SessionAnswers(s) == DerivedAnswers(s.log.events) == DerivedAnswers(s.log.jsonl)
            && SessionAnswers(Restarted(s, time)) == SessionAnswers(s)
  {
    var s := After(Init(p), run);
    Reached(p, run);
    InertTail(s.log.jsonl, s.log.events);
  }

  /** Whether live or restored, each agent's reported answer is that of its latest completed turn that had one. */
  lemma AnswersAreLatest(p: Plan, run: seq<Action>, a: AgentId, b: nat)
    requires WellFormedPlan(p) && Legal(Init(p), run) && a != ""
    ensures var s := After(Init(p), run); var t := s.log.events;
            && b < |t| && AnswerClosedAt(t, b, a).Some? && (forall c :: b < c < |t| ==> AnswerClosedAt(t, c, a).None?)
            ==> Lookup(SessionAnswers(s), a) == AnswerClosedAt(t, b, a)
    ensures var s := After(Init(p), run); var t := s.log.events;
            (forall c :: 0 <= c < |t| ==> AnswerClosedAt(t, c, a).None?) ==> Lookup(SessionAnswers(s), a).None?
  {
    Reached(p, run);
    DerivedIsLatestCompleted(After(Init(p), run).log.events, a);
  }

  /** An agent whose turn did not complete, or was given up, never runs another turn. */
  lemma FailedAgentNeverReturns(p: Plan, run: seq<Action>, i: nat, j: nat)
    requires WellFormedPlan(p) && Legal(Init(p), run)
    requires i < j < |After(Init(p), run).work.turns|
    requires After(Init(p), run).work.turns[i].agent == After(Init(p), run).work.turns[j].agent
    ensures CompletedTurn(After(Init(p), run).work.turns[i])
  {
    Reached(p, run);
  }

  // ----- one sequence, one boundary per outcome

  lemma OutcomesDistinct(p: Plan, w: Work, jsonl: seq<Event>, j: nat, k: nat)
    requires CommitInv(p, w, jsonl) && j < k < |w.outcomes|
    ensures w.outcomes[j].turnId != w.outcomes[k].turnId
  {
    if w.outcomes[j].turnId == w.outcomes[k].turnId {
      TurnIdInjective(w.committed[j] + 1, w.committed[k] + 1);
    }
  }

  lemma SettledHasOutcome(p: Plan, w: Work, jsonl: seq<Event>, i: nat)
    requires CommitInv(p, w, jsonl) && i < |w.turns| && w.turns[i].phase.Settled?
    ensures exists k :: 0 <= k < |w.outcomes| && w.outcomes[k].turnId == TurnId(i + 1)
  {
    var k :| 0 <= k < |w.committed| && w.committed[k] == i;
    assert w.outcomes[k].turnId == TurnId(i + 1);
  }

  /**
   * While the log is open, transcript, file and daemon list are one sequence, so a
   * transcript position is a valid event id. In every state the boundary events of the
   * file are the published outcomes, in order, and no turn is committed twice.
   */
  lemma LogAndOutcomes(p: Plan, run: seq<Action>)
    requires WellFormedPlan(p) && Legal(Init(p), run)
    ensures var s := After(Init(p), run);
            && (s.log.open ==> s.log.transcript == s.log.events == s.log.jsonl)
            && Boundaries(s.log.jsonl) == s.work.outcomes
            && (forall j, k :: 0 <= j < k < |s.work.outcomes| ==> s.work.outcomes[j].turnId != s.work.outcomes[k].turnId)
            && (forall i :: 0 <= i < |s.work.turns| && s.work.turns[i].phase.Settled? ==>
                  exists k :: 0 <= k < |s.work.outcomes| && s.work.outcomes[k].turnId == TurnId(i + 1))
  {
    var s := After(Init(p), run);
    Reached(p, run);
    assert CommitInv(s.plan, s.work, s.log.jsonl) && Lockstep(s.log);
    hide Inv, PlainEvents, Inert, RecordOf, WellFormedRecord, TurnId;
    forall j, k | 0 <= j < k < |s.work.outcomes| ensures s.work.outcomes[j].turnId != s.work.outcomes[k].turnId {
      OutcomesDistinct(s.plan, s.work, s.log.jsonl, j, k);
    }
    forall i | 0 <= i < |s.work.turns| && s.work.turns[i].phase.Settled?
      ensures exists k :: 0 <= k < |s.work.outcomes| && s.work.outcomes[k].turnId == TurnId(i + 1)
    {
      SettledHasOutcome(s.plan, s.work, s.log.jsonl, i);
    }
  }

  // ----- settled

  /** A live session that counts as settled is idle, and waits at a point where no turn is open. */
  lemma SettledIsIdle(s: Session)
    requires TurnInv(s) && (!s.pc.Restored? ==> InboxInv(s) && FlagInv(s)) && LifeInv(s)
    requires ResultSettled(s) && !Terminal(s.life.status)
    ensures s.inbox.queue == [] && s.inbox.current.None? && !s.turnActive && Closed(s.work.turns) && !s.pc.Restored?
  {}

  /**
   * A live session that is reported settled is idle: nothing queued or in process, no turn
   * open or marked active, and the reported answers are those its events give. An
   * unsettled result, a heartbeat, carries no answers.
   */
  lemma SettledIsHonest(p: Plan, run: seq<Action>)
    requires WellFormedPlan(p) && Legal(Init(p), run)
    ensures var s := After(Init(p), run); var r := BuildResult(s);
            && (r.settled && !Terminal(s.life.status) ==>
                  && s.inbox.queue == [] && s.inbox.current.None? && !s.turnActive
                  && Closed(s.work.turns)
                  && r.answers == DerivedAnswers(s.log.events))
            && (!r.settled ==> r.answers == [])
  {
    Reached(p, run);
    var s := After(Init(p), run);
    if ResultSettled(s) && !Terminal(s.life.status) {
      SettledIsIdle(s);
    }
  }

  // ----- posts

  lemma {:induction false} DirectedIncreasing(turns: seq<Turn>)
    ensures forall j, k :: 0 <= j < k < |DirectedTurns(turns)| ==> DirectedTurns(turns)[j] < DirectedTurns(turns)[k]
    ensures forall i :: 0 <= i < |turns| ==> (turns[i].directed <==> i in DirectedTurns(turns))
  {
    if turns != [] {
      DirectedIncreasing(turns[..|turns| - 1]);
    }
  }

  lemma DoneInbox(s: Session)
    requires InboxInv(s) && s.life.status.Done?
    ensures s.inbox.posted == s.inbox.consumed + s.inbox.queue && s.inbox.unfinished == |s.inbox.queue|
    ensures |DirectedTurns(s.work.turns)| == |Routed(s.plan, s.inbox.consumed)|
    ensures forall k :: 0 <= k < |Routed(s.plan, s.inbox.consumed)| ==>
              var t := s.work.turns[DirectedTurns(s.work.turns)[k]];
              CompletedTurn(t) && Some(t.agent) == Route(s.plan, Routed(s.plan, s.inbox.consumed)[k])
    ensures forall j, k :: 0 <= j < k < |DirectedTurns(s.work.turns)| ==>
              DirectedTurns(s.work.turns)[j] < DirectedTurns(s.work.turns)[k]
  {
    hide DirectedTurns, Routed, Route, CompletedTurn;
    DirectedIncreasing(s.work.turns);
    assert s.inbox.dropped == [] && s.inbox.current.None?;
  }

  /**
   * In a session that ended as done each accepted post was consumed exactly once, in posting
   * order, or was left in the queue behind those; its directed turns are, in order, one
   * completed turn for each routed post that was consumed, by the agent it was routed to.
   */
  lemma DoneAccountsForPosts(p: Plan, run: seq<Action>)
    requires WellFormedPlan(p) && Legal(Init(p), run)
    ensures var s := After(Init(p), run);
            s.life.status.Done? && !s.pc.Restored? ==>
              && s.inbox.posted == s.inbox.consumed + s.inbox.queue && s.inbox.unfinished == |s.inbox.queue|
              && |DirectedTurns(s.work.turns)| == |Routed(p, s.inbox.consumed)|
              && (forall k :: 0 <= k < |Routed(p, s.inbox.consumed)| ==>
                    var t := s.work.turns[DirectedTurns(s.work.turns)[k]];
                    CompletedTurn(t) && Some(t.agent) == Route(p, Routed(p, s.inbox.consumed)[k]))
              && (forall j, k :: 0 <= j < k < |DirectedTurns(s.work.turns)| ==>
                    DirectedTurns(s.work.turns)[j] < DirectedTurns(s.work.turns)[k])
  {
    var s := After(Init(p), run);
    Reached(p, run);
    PlanFixed(Init(p), run);
    assert s.life.status.Done? && !s.pc.Restored? ==> InboxInv(s);
    hide *;
    if s.life.status.Done? && !s.pc.Restored? {
      DoneInbox(s);
    }
  }

  /** The idle close is decided over a post: with a zero timeout, or as the post arrives with the timeout. */
  predicate ClosesOverPost(s: Session, a: Action) { a == OnInput(IdleClose) && s.inbox.queue != [] }

  predicate EverClosesOverPost(s: Session, run: seq<Action>)
    requires Legal(s, run)
    decreases run
  {
    run != [] && (ClosesOverPost(s, run[0]) || EverClosesOverPost(Apply(s, run[0]), run[1..]))
  }

  /** On the way to a normal end with a post that nobody will take. */
  predicate Leftover(s: Session) {
    (s.pc.Closing? || s.life.status.Done? || (s.pc.Unwinding? && s.pc.ending.Normal?)) && s.inbox.queue != []
  }

  lemma StepPlanFixed(s: Session, a: Action)
    requires Enabled(s, a)
    ensures Apply(s, a).plan == s.plan
  {
    hide Append, Answered, BuildPrompt, MarkAll, CommitWork, SomeAccepted, SomeRefused, EndingOf, FinalLife;
    match a
    case OnInput(i) =>
    case OnStage(g) => StagePlanFixed(s, g);
    case OnTurn(t) =>
    case OnExit(e) =>
  }

  lemma StagePlanFixed(s: Session, a: StageAction)
    requires StageEnabled(s, a)
    ensures ApplyStage(s, a).plan == s.plan
  {
    hide Append, Answered, BuildPrompt, MarkAll, SomeAccepted, SomeRefused, EndingOf, SetStatus;
  }

  lemma {:induction false} PlanFixed(s: Session, run: seq<Action>)
    requires Legal(s, run)
    ensures After(s, run).plan == s.plan
    decreases run
  {
    if run != [] {
      StepPlanFixed(s, run[0]);
      PlanFixed(Apply(s, run[0]), run[1..]);
    }
  }

  predicate CloseDecided(pc: Pc) { pc.Closing? || !InRun(pc) }

  /** No post was added, and the queue is as it was unless a restart dropped it. */
  predicate SameQueue(s: Session, t: Session) {
    t.inbox.posted == s.inbox.posted && (t.pc.Restored? || (!s.pc.Restored? && t.inbox.queue == s.inbox.queue))
  }

  lemma PostRefused(s: Session)
    requires LogInv(s) && (InRun(s.pc) ==> FlagInv(s)) && CloseDecided(s.pc)
    ensures !PostAccepted(s)
  {}

  lemma InputStaysClosed(s: Session, a: InputAction)
    requires CloseDecided(s.pc) && InputEnabled(s, a) && !PostAccepted(s)
    ensures !a.Post?
    ensures CloseDecided(ApplyInput(s, a).pc) && SameQueue(s, ApplyInput(s, a))
  {}

  lemma OtherStaysClosed(s: Session, a: Action)
    requires CloseDecided(s.pc) && Enabled(s, a) && !a.OnInput?
    ensures CloseDecided(Apply(s, a).pc) && SameQueue(s, Apply(s, a))
  {
    hide Append, GiveUpAll, SetStatus, FinalLife, MayEmit, Recordable, RecordOf, CommitWork, TurnAnswer;
    assert !a.OnStage?;
  }

  lemma StepStaysClosed(s: Session, a: Action)
    requires LogInv(s) && (InRun(s.pc) ==> FlagInv(s)) && CloseDecided(s.pc) && Enabled(s, a)
    ensures !(a.OnInput? && a.i.Post?)
    ensures CloseDecided(Apply(s, a).pc) && SameQueue(s, Apply(s, a))
  {
    PostRefused(s);
    if a.OnInput? {
      InputStaysClosed(s, a.i);
    } else {
      OtherStaysClosed(s, a);
    }
  }

  predicate NoPosts(run: seq<Action>) {
    run == [] || (!(run[0].OnInput? && run[0].i.Post?) && NoPosts(run[1..]))
  }

  /** Once the idle close is decided, or the run is on its way out, no post is accepted any more. */
  lemma {:induction false} NoPostAfterClose(s: Session, run: seq<Action>)
    requires Inv(s) && CloseDecided(s.pc) && Legal(s, run)
    ensures NoPosts(run) && SameQueue(s, After(s, run))
    decreases run
  {
    if run != [] {
      StepStaysClosed(s, run[0]);
      StepKept(s, run[0]);
      NoPostAfterClose(Apply(s, run[0]), run[1..]);
    }
  }

  lemma InputLeftover(s: Session, a: InputAction)
    requires FlagInv(s) && LifeInv(s) && InputEnabled(s, a) && !Leftover(s) && (CloseDecided(s.pc) ==> !PostAccepted(s))
    ensures Leftover(ApplyInput(s, a)) <==> ClosesOverPost(s, OnInput(a))
  {
    hide Append, BuildPrompt, Route;
  }

  lemma StageLeftover(s: Session, a: StageAction)
    requires FlagInv(s) && StageEnabled(s, a) && !Leftover(s)
    ensures !Leftover(ApplyStage(s, a))
  {
    hide Append, BuildPrompt, MarkAll, SomeAccepted, SomeRefused, RecordOf;
  }

  lemma ExitLeftover(s: Session, a: ExitAction)
    requires (InRun(s.pc) ==> FlagInv(s)) && ExitEnabled(s, a) && !Leftover(s)
    ensures !Leftover(ApplyExit(s, a))
  {}

  /** A post is left over from the step on that decides the close over it, and from no other. */
  lemma LeftoverExactlyWhen(s: Session, a: Action)
    requires Inv(s) && Enabled(s, a) && !Leftover(s)
    ensures Leftover(Apply(s, a)) <==> ClosesOverPost(s, a)
  {
    hide LogInv, TurnInv, CommitInv, PromptInv, LedgerInv, InboxInv;
    match a
    case OnInput(i) =>
      if CloseDecided(s.pc) {
        PostRefused(s);
      }
      InputLeftover(s, i);
    case OnStage(g) => StageLeftover(s, g);
    case OnTurn(t) =>
    case OnExit(e) => ExitLeftover(s, e);
  }

  lemma {:induction false} LeftoverRun(s: Session, run: seq<Action>)
    requires Inv(s) && Legal(s, run) && !Leftover(s)
    requires After(s, run).life.status.Done? && !After(s, run).pc.Restored?
    ensures After(s, run).inbox.queue != [] <==> EverClosesOverPost(s, run)
    decreases run
  {
    hide Inv, Enabled, Apply;
    if run != [] {
      StepKept(s, run[0]);
      LeftoverExactlyWhen(s, run[0]);
      if ClosesOverPost(s, run[0]) {
        ClosedOverPost(s);
        NoPostAfterClose(Apply(s, run[0]), run[1..]);
      } else {
        LeftoverRun(Apply(s, run[0]), run[1..]);
      }
    }
  }

  lemma ClosedOverPost(s: Session)
    requires ClosesOverPost(s, OnInput(IdleClose)) && Enabled(s, OnInput(IdleClose))
    ensures var t := Apply(s, OnInput(IdleClose)); CloseDecided(t.pc) && !t.pc.Restored? && t.inbox.queue == s.inbox.queue
  {}

  /**
   * A session that ended as done consumed every accepted post if and only if its idle close
   * was not decided over one.
   */
  lemma DoneConsumedEveryPost(p: Plan, run: seq<Action>)
    requires WellFormedPlan(p) && Legal(Init(p), run)
    ensures var s := After(Init(p), run);
            s.life.status.Done? && !s.pc.Restored? ==>
              (s.inbox.consumed == s.inbox.posted <==> !EverClosesOverPost(Init(p), run))
  {
    DoneAccountsForPosts(p, run);
    hide Inv, Legal, After, EverClosesOverPost, Routed, DirectedTurns;
    var s := After(Init(p), run);
    if s.life.status.Done? && !s.pc.Restored? {
      InitInv(p);
      LeftoverRun(Init(p), run);
      assert s.inbox.queue == [] ==> s.inbox.consumed + s.inbox.queue == s.inbox.consumed;
    }
  }

  lemma Preceded(s: Session, a: Action, run: seq<Action>)
    requires Enabled(s, a) && Legal(Apply(s, a), run)
    ensures Legal(s, [a] + run) && After(s, [a] + run) == After(Apply(s, a), run)
    ensures EverClosesOverPost(s, [a] + run) <==> ClosesOverPost(s, a) || EverClosesOverPost(Apply(s, a), run)
  {
    hide Enabled, Apply;
    assert ([a] + run)[1..] == run;
  }

  lemma LatePost(s: Session, post: InputAction, note: Stamp)
    requires FlagInv(s) && s.pc.Waiting? && s.inbox.queue == [] && post.Post? && InputEnabled(s, post)
    ensures var t := ApplyInput(s, post);
            && InputEnabled(t, IdleClose) && t.inbox.queue == [post.input]
            && var u := ApplyInput(t, IdleClose);
            && InputEnabled(u, CloseSession(note))
            && var v := ApplyInput(u, CloseSession(note));
            && v.life.status.Done? && v.inbox.queue == [post.input]
  {
    hide Append, KnownTarget;
  }

  /** In any session that waits with nothing queued, a post may arrive with the idle timeout: then it is lost. */
  lemma EarlyCloseLosesPost(s: Session, time: string, human: bool, input: Input, note: Stamp)
    requires Inv(s) && s.pc.Waiting? && s.inbox.queue == [] && PostAccepted(s) && KnownTarget(s.plan, input)
    ensures exists run :: Legal(s, run) && EverClosesOverPost(s, run)
                          && After(s, run).life.status.Done? && After(s, run).inbox.queue == [input]
  {
    hide LogInv, TurnInv, CommitInv, PromptInv, LedgerInv, InboxInv, LifeInv, Legal, After, EverClosesOverPost;
    var post, close, end := Post(time, human, input), IdleClose, CloseSession(note);
    assert InputEnabled(s, post);
    LatePost(s, post, note);
    hide Inv, InputEnabled, ApplyInput;
    var t := Apply(s, OnInput(post));
    var u := Apply(t, OnInput(close));
    NoAction(Apply(u, OnInput(end)));
    Preceded(u, OnInput(end), []);
    Preceded(t, OnInput(close), [OnInput(end)] + []);
    Preceded(s, OnInput(post), [OnInput(close)] + ([OnInput(end)] + []));
  }

  lemma NoAction(s: Session)
    ensures Legal(s, []) && After(s, []) == s
  {}

  // ----- status and failure

  predicate SameEnd(l: Life, m: Life) { l.status == m.status && l.endedAt == m.endedAt && l.failure == m.failure }

  lemma InputTerminalFinal(s: Session, a: InputAction)
    requires Terminal(s.life.status) && InputEnabled(s, a)
    ensures SameEnd(s.life, ApplyInput(s, a).life)
  {}

  lemma StageTerminalFinal(s: Session, a: StageAction)
    requires Terminal(s.life.status) && StageEnabled(s, a)
    ensures SameEnd(s.life, ApplyStage(s, a).life)
  {}

  lemma ExitTerminalFinal(s: Session, a: ExitAction)
    requires Terminal(s.life.status) && ExitEnabled(s, a)
    ensures SameEnd(s.life, ApplyExit(s, a).life)
  {}

  lemma StepTerminalFinal(s: Session, a: Action)
    requires Terminal(s.life.status) && Enabled(s, a)
    ensures SameEnd(s.life, Apply(s, a).life)
  {
    match a
    case OnInput(i) => InputTerminalFinal(s, i);
    case OnStage(g) => StageTerminalFinal(s, g);
    case OnTurn(t) =>
    case OnExit(e) => ExitTerminalFinal(s, e);
  }

  /** A terminal status, its end time and its failure survive stop, failure, completion and restart alike. */
  lemma {:induction false} TerminalIsFinal(s: Session, run: seq<Action>)
    requires Terminal(s.life.status) && Legal(s, run)
    ensures SameEnd(s.life, After(s, run).life)
    decreases run
  {
    if run != [] {
      StepTerminalFinal(s, run[0]);
      TerminalIsFinal(Apply(s, run[0]), run[1..]);
    }
  }

  lemma NamedFailure(p: Plan, w: Work, jsonl: seq<Event>, f: SessionFailure)
    requires CommitInv(p, w, jsonl) && NamesOutcome(w.outcomes, f) && f.turnId.Some?
    ensures exists k :: 0 <= k < |w.outcomes| && !w.outcomes[k].outcome.kind.Completed? && FromRecord(w.outcomes[k]) == Ok(f)
  {
    var k :| 0 <= k < |w.outcomes| && !w.outcomes[k].outcome.kind.Completed? && ProjectsTo(w.outcomes[k], f);
    assert WellFormedRecord(w.outcomes[k]);
    FailureOfRecord(w.outcomes[k]);
  }

  /**
   * A failure is published exactly when the status is failed, an end time exactly when the
   * status is terminal; a failure that names a turn is the projection of a committed
   * outcome that did not complete, and the failure constructor accepts that record.
   */
  lemma FailureIsTruthful(p: Plan, run: seq<Action>)
    requires WellFormedPlan(p) && Legal(Init(p), run)
    ensures var s := After(Init(p), run);
            && (s.life.failure.Some? <==> s.life.status.Failed?)
            && (s.life.endedAt.Some? <==> Terminal(s.life.status))
            && (s.life.failure.Some? && s.life.failure.value.turnId.Some? ==>
                  exists k :: 0 <= k < |s.work.outcomes| && !s.work.outcomes[k].outcome.kind.Completed?
                              && FromRecord(s.work.outcomes[k]) == Ok(s.life.failure.value))
  {
    var s := After(Init(p), run);
    Reached(p, run);
    hide LogInv, TurnInv, CommitInv, PromptInv, LedgerInv, InboxInv, FlagInv, NamesOutcome, FromRecord;
    if s.life.failure.Some? && s.life.failure.value.turnId.Some? {
      NamedFailure(s.plan, s.work, s.log.jsonl, s.life.failure.value);
    }
  }

  /** The record of an arbitrated turn is refused exactly for the names of its agent and of its backend. */
  lemma RecordableExactlyWhen(p: Plan, run: seq<Action>, i: nat)
    requires WellFormedPlan(p) && Legal(Init(p), run)
    requires HasTurn(After(Init(p), run), i) && After(Init(p), run).work.turns[i].phase.Arbitrated?
    ensures var t := After(Init(p), run).work.turns[i];
            t.agent in p.backends && (Recordable(p, t, i) <==> ValidIdentifier(t.agent) && KnownBackend(p.backends[t.agent]))
  {
    Reached(p, run);
    PlanFixed(Init(p), run);
    var s := After(Init(p), run);
    assert WellFormedTurn(p, s.work.turns[i]);
    AllocatedTurnId(i + 1);
  }

  /** Every published record is well formed, so an agent whose configured name is no identifier has none, and no settled turn. */
  lemma RefusedAgentNeverCommits(p: Plan, run: seq<Action>, a: AgentId)
    requires WellFormedPlan(p) && Legal(Init(p), run)
    ensures var s := After(Init(p), run);
            && (forall r :: r in s.work.outcomes ==> WellFormedRecord(r))
            && (!ValidIdentifier(a) ==> forall i :: 0 <= i < |s.work.turns| && s.work.turns[i].agent == a ==> !s.work.turns[i].phase.Settled?)
  {
    var s := After(Init(p), run);
    Reached(p, run);
    assert CommitInv(s.plan, s.work, s.log.jsonl);
    hide Inv, ValidIdentifier;
    forall i | 0 <= i < |s.work.turns| && s.work.turns[i].phase.Settled? ensures ValidIdentifier(s.work.turns[i].agent) {
      var k :| 0 <= k < |s.work.committed| && s.work.committed[k] == i;
      assert WellFormedRecord(s.work.outcomes[k]);
    }
  }

  /** A turn whose record is refused ends the run as broken, whatever else was asked of it. */
  lemma RefusalBreaksTheRun(s: Session, note: Stamp)
    ensures StageEnabled(s, FinishTurn) && s.work.turns[|s.work.turns| - 1].phase.Dropped? ==>
              TurnFinished(s).pc == Unwinding(BrokenRun)
    ensures StageEnabled(s, FinishParallel(note)) && SomeRefused(s.work.turns, s.pc.first) && !s.life.stopRequested ==>
              ParallelFinished(s, note).pc == Unwinding(BrokenRun)
  {}

  // ----- prompts

  /** What is visible is a filter: the shown events are exactly those of the stretch that are not hidden. */
  lemma {:induction false} VisibleMeaning(t: seq<Event>, from: nat, to: nat, a: AgentId, e: Event)
    requires to <= |t|
    ensures e in Visible(t, from, to, a) <==> exists k :: from <= k < to && t[k] == e && !Hidden(e, a)
  {
    hide Hidden;
    if from < to {
      VisibleMeaning(t, from, to - 1, a, e);
      if exists k :: from <= k < to && t[k] == e && !Hidden(e, a) {
        var k :| from <= k < to && t[k] == e && !Hidden(e, a);
        assert k == to - 1 || k < to - 1;
      }
    }
  }

  /**
   * Continuation prompts lose and repeat nothing: what an agent's conversation was sent
   * since its last stand-alone prompt is the visible part of the transcript from there to
   * its watermark, which never passes the transcript's end.
   */
  lemma PromptsLoseNothing(p: Plan, run: seq<Action>, a: AgentId)
    requires WellFormedPlan(p) && Legal(Init(p), run) && a in After(Init(p), run).prompts.sent
    ensures var s := After(Init(p), run);
            && a in s.prompts.watermarks
            && s.prompts.sent[a].start <= s.prompts.watermarks[a] <= |s.log.transcript|
            && s.prompts.sent[a].delivered ==
               Visible(s.log.transcript, s.prompts.sent[a].start, s.prompts.watermarks[a], a)
  {
    Reached(p, run);
  }

  predicate Monotone(s: Session, t: Session) {
    && s.log.transcript <= t.log.transcript && s.log.jsonl <= t.log.jsonl
    && forall a :: a in s.prompts.watermarks ==>
         a in t.prompts.watermarks && s.prompts.watermarks[a] <= t.prompts.watermarks[a]
  }

  lemma {:induction false} MarkAllMonotone(p: Prompts, t: seq<Event>, members: seq<AgentId>)
    requires forall a :: a in p.watermarks ==> p.watermarks[a] <= |t|
    ensures var q := MarkAll(p, t, members);
            forall a :: a in p.watermarks ==> a in q.watermarks && p.watermarks[a] <= q.watermarks[a] <= |t|
  {
    if members != [] {
      MarkAllMonotone(p, t, members[..|members| - 1]);
    }
  }

  lemma InputMonotone(s: Session, a: InputAction)
    requires PromptInv(s.prompts, s.log.transcript) && InputEnabled(s, a)
    ensures Monotone(s, ApplyInput(s, a))
  {
    hide Visible, Route, SetStatus;
  }

  lemma StartMonotone(s: Session, a: StageAction)
    requires PromptInv(s.prompts, s.log.transcript) && StageEnabled(s, a) && (a.StartPlanned? || a.StartParallel?)
    ensures Monotone(s, ApplyStage(s, a))
  {
    if a.StartParallel? {
      MarkAllMonotone(s.prompts, Append(s.log, NoteOf(a.note, None)).transcript, s.plan.stages[s.pc.next]);
    }
  }

  lemma FinishTurnMonotone(s: Session)
    requires StageEnabled(s, FinishTurn)
    ensures Monotone(s, TurnFinished(s))
  {}

  lemma StageMonotone(s: Session, a: StageAction)
    requires StageEnabled(s, a) && !a.StartPlanned? && !a.StartParallel?
    ensures Monotone(s, ApplyStage(s, a))
  {
    match a
    case Open(note, task) =>
    case FinishTurn => FinishTurnMonotone(s);
    case FinishParallel(note) => FinishParallelMonotone(s, note);
    case FinishStages(note) => FinishStagesMonotone(s, note);
  }

  lemma FinishParallelMonotone(s: Session, note: Stamp)
    requires StageEnabled(s, FinishParallel(note))
    ensures Monotone(s, ParallelFinished(s, note))
  {}

  lemma FinishStagesMonotone(s: Session, note: Stamp)
    requires StageEnabled(s, FinishStages(note))
    ensures Monotone(s, StagesFinished(s, note))
  {}

  lemma TurnMonotone(s: Session, a: TurnAction)
    requires TurnEnabled(s, a)
    ensures Monotone(s, ApplyTurn(s, a))
  {}

  lemma ExitMonotone(s: Session, a: ExitAction)
    requires ExitEnabled(s, a)
    ensures Monotone(s, ApplyExit(s, a))
  {}

  lemma StepMonotone(s: Session, a: Action)
    requires PromptInv(s.prompts, s.log.transcript) && Enabled(s, a)
    ensures Monotone(s, Apply(s, a))
  {
    match a
    case OnInput(i) => InputMonotone(s, i);
    case OnStage(g) =>
      if g.StartPlanned? || g.StartParallel? {
        StartMonotone(s, g);
      } else {
        StageMonotone(s, g);
      }
    case OnTurn(t) => TurnMonotone(s, t);
    case OnExit(e) => ExitMonotone(s, e);
  }

  /** Transcript and log file only grow, and watermarks never move back. */
  lemma {:induction false} RunMonotone(s: Session, run: seq<Action>)
    requires Inv(s) && Legal(s, run)
    ensures Monotone(s, After(s, run))
    decreases run
  {
    if run != [] {
      StepMonotone(s, run[0]);
      StepKept(s, run[0]);
      RunMonotone(Apply(s, run[0]), run[1..]);
    }
  }
}
