/**
 * The objects behind the session protocol: the tracked input queue and the managed session
 * of agent_collab/daemon.py, and the referee of agent_collab/referee.py. A method of the
 * referee that requires `Valid` is one stretch without a suspension: it is proved to be a
 * protocol action, so the objects stay within the protocol's invariant whatever is called
 * next, and its contract says what callers and clients see.
 */
module LiveSession {
  import opened Common
  import opened Outcomes
  import opened Events
  import opened Answers
  import opened SessionProtocol
  import opened SessionInvariants
  import opened SessionTheorems

  class TrackedInputQueue {
    var items: seq<Input>
    var unfinished: nat
    /** Whom `task_done` tells: the session that the queue belongs to. */
    var hook: ManagedSession?

    constructor ()
      ensures items == [] && unfinished == 0 && hook == null
    {
      items, unfinished, hook := [], 0, null;
    }

    method SetTaskDoneHook(session: ManagedSession)
      modifies this`hook
      ensures hook == session
    {
      hook := session;
    }

    method PutNowait(item: Input)
      modifies this`items, this`unfinished
      ensures items == old(items) + [item] && unfinished == old(unfinished) + 1
    {
      items := items + [item];
      unfinished := unfinished + 1;
    }

    method GetNowait() returns (item: Option<Input>)
      modifies this`items
      ensures old(items) == [] ==> item.None? && items == []
      ensures old(items) != [] ==> item == Some(old(items)[0]) && items == old(items)[1..]
    {
      if items == [] {
        return None;
      }
      item := Some(items[0]);
      items := items[1..];
    }

    /** One input less is unfinished, and the session's waiters will be notified. */
    method TaskDone()
      modifies this`unfinished, (if hook == null then {} else {hook})`notifyPending
      ensures unfinished == OneLess(old(unfinished))
      ensures hook != null ==> hook.notifyPending
    {
      if unfinished > 0 {
        unfinished := unfinished - 1;
      }
      if hook != null {
        hook.notifyPending := true;
      }
    }
  }

  class ManagedSession {
    const queue: TrackedInputQueue
    var events: seq<Event>
    var outcomes: seq<TurnRecord>
    var ledger: seq<Answer>
    var status: Status
    var failure: Option<SessionFailure>
    var endedAt: Option<string>
    var stopRequested: bool
    var appender: bool
    var turnActive: bool
    var accepting: bool
    var notifyPending: bool

    constructor ()
      ensures fresh(queue) && queue.items == [] && queue.unfinished == 0 && queue.hook == this
      ensures events == [] && outcomes == [] && ledger == []
      ensures LifeView() == Life(Running, None, None, false)
      ensures !appender && !turnActive && !accepting && !notifyPending
    {
      queue := new TrackedInputQueue();
      events, outcomes, ledger := [], [], [];
      status, failure, endedAt, stopRequested := Running, None, None, false;
      appender, turnActive, accepting, notifyPending := false, false, false, false;
      new;
      queue.SetTaskDoneHook(this);
    }

    ghost function LifeView(): Life
      reads this
    {
      Life(status, failure, endedAt, stopRequested)
    }

    method RecordEvent(e: Event)
      modifies this`events, this`notifyPending
      ensures events == old(events) + [e] && notifyPending
    {
      events := events + [e];
      notifyPending := true;
    }

    /** Refuses a second outcome for a turn; otherwise outcome and boundary become visible together. */
    method RecordTurnOutcome(record: TurnRecord, boundary: Event) returns (ok: bool)
      modifies this`outcomes, this`events, this`notifyPending
      ensures ok <==> forall r :: r in old(outcomes) ==> r.turnId != record.turnId
      ensures ok ==> outcomes == old(outcomes) + [record] && events == old(events) + [boundary] && notifyPending
      ensures !ok ==> outcomes == old(outcomes) && events == old(events) && notifyPending == old(notifyPending)
    {
      if exists r :: r in outcomes && r.turnId == record.turnId {
        return false;
      }
      outcomes := outcomes + [record];
      events := events + [boundary];
      notifyPending := true;
      ok := true;
    }

    method RecordSessionAnswer(answer: Answer)
      modifies this`ledger
      ensures ledger == if answer.agent == "" then old(ledger) else Upsert(old(ledger), answer)
    {
      if answer.agent == "" {
        return;
      }
      ledger := Upsert(ledger, answer);
    }

    method TransitionState(requested: Status) returns (done: bool)
      modifies this`status
      ensures Terminal(old(status)) ==> status == old(status) && (done <==> status == requested)
      ensures !Terminal(old(status)) ==> status == requested && done
    {
      if Terminal(status) {
        return status == requested;
      }
      status := requested;
      done := true;
    }

    /** The result says whether the session now has the requested status. */
    method SetStatusNow(requested: Status, why: Option<SessionFailure>, now: string) returns (done: bool)
      modifies this`status, this`failure, this`endedAt
      ensures LifeView() == SetStatus(old(LifeView()), requested, why, now)
      ensures done <==> status == requested
    {
      if Terminal(status) {
        return status == requested;
      }
      done := TransitionState(requested);
      if Terminal(requested) {
        endedAt := Some(now);
      }
      if why.Some? {
        failure := why;
      }
    }

    /** Each way out publishes one terminal status, unless a stop will publish it. */
    method Conclude(ending: Ending, time: string)
      modifies this`status, this`failure, this`endedAt, this`events, this`notifyPending
      ensures LifeView() == FinalLife(old(LifeView()), ending, time)
      ensures events == old(events) + (if ending.BrokenRun? then [FaultEvent(time)] else [])
    {
      match ending {
        case Normal =>
          if Live(status) && !stopRequested {
            var _ := SetStatusNow(Done, None, time);
          }
        case CancelledRun =>
          if !stopRequested {
            var _ := SetStatusNow(Status.Failed, Some(Bare(RefereeCancelledUnexpected, None)), time);
          }
        case FailedRun(why) =>
          var _ := SetStatusNow(Status.Failed, Some(why), time);
        case BrokenRun =>
          RecordEvent(FaultEvent(time));
          var _ := SetStatusNow(Status.Failed, Some(Bare(ProviderTransportFailed, None)), time);
      }
    }

    method SetInputAccepting(on: bool)
      modifies this`accepting, this`notifyPending
      ensures accepting == on && notifyPending
    {
      accepting := on;
      notifyPending := true;
    }

    method IsSettled() returns (settled: bool)
      ensures settled <==> Terminal(status) || (status.AwaitingInput? && accepting && queue.unfinished == 0)
    {
      if Terminal(status) {
        return true;
      }
      settled := status == AwaitingInput && accepting && queue.unfinished == 0;
    }
  }

  /** The events of transcript[watermark:] that a continuation prompt shows. */
  method ContinuationDelta(transcript: seq<Event>, watermark: nat, agent: AgentId) returns (visible: seq<Event>)
    requires watermark <= |transcript|
    ensures visible == Visible(transcript, watermark, |transcript|, agent)
  {
    visible := [];
    for index := watermark to |transcript|
      invariant visible == Visible(transcript, watermark, index, agent)
    {
      var event := transcript[index];
      if event.agent != Some(agent) && !event.providerSession {
        visible := visible + [event];
      }
    }
  }

  /** Watermarks lie within the transcript. */
  predicate Bounded(watermarks: map<AgentId, nat>, n: nat) {
    forall a :: a in watermarks ==> watermarks[a] <= n
  }

  /** What a commit relies on; `CommitIsReady` gives it in every reachable state. */
  predicate ReadyToCommit(s: Session, i: nat) {
    && HasTurn(s, i) && Committable(s.plan, s.work.turns[i], i) && s.log.open && i !in s.work.committed
    && (forall r :: r in s.work.outcomes ==> r.turnId != TurnId(i + 1))
    && (s.work.turns[i].phase.answer.Some? ==> s.work.turns[i].phase.answer.value.agent != "")
  }

  class Referee {
    const plan: Plan
    const managed: ManagedSession
    var transcript: seq<Event>
    var jsonl: seq<Event>
    var logOpen: bool
    var turns: seq<Turn>
    var committed: seq<nat>
    var watermarks: map<AgentId, nat>
    var current: Option<Input>
    ghost var pc: Pc
    ghost var sent: map<AgentId, Sent>
    ghost var posted: seq<Input>
    ghost var consumed: seq<Input>
    ghost var dropped: seq<Input>
    ghost var answeredBy: seq<nat>

    constructor (plan: Plan)
      requires WellFormedPlan(plan)
      ensures fresh(managed) && fresh(managed.queue)
      ensures View() == Init(plan) && Valid()
    {
      this.plan := plan;
      managed := new ManagedSession();
      transcript, jsonl, logOpen, turns, committed, watermarks, current := [], [], false, [], [], map[], None;
      pc, sent, posted, consumed, dropped, answeredBy := Opening, map[], [], [], [], [];
      StartReachable(plan);
    }

    /** These objects hold a state that the protocol can be in, and belong together. */
    ghost predicate Valid()
      reads this, managed, managed.queue
    {
      managed.queue.hook == managed && !pc.Restored? && History(View()) != iset{}
    }

    // The parts of the protocol state that these objects hold.

    ghost function LogView(): Log
      reads this, managed
    {
      Log(transcript, jsonl, managed.events, logOpen)
    }

    ghost function WorkView(): Work
      reads this, managed
    {
      Work(turns, committed, managed.outcomes, managed.ledger)
    }

    ghost function PromptView(): Prompts
      reads this
    {
      Prompts(watermarks, sent)
    }

    ghost function BoxView(): Inbox
      reads this, managed.queue
    {
      Inbox(managed.queue.items, managed.queue.unfinished, current, posted, consumed, dropped, answeredBy)
    }

    /** The protocol state these objects hold. */
    ghost function View(): Session
      reads this, managed, managed.queue
    {
      Session(plan, pc, LogView(), WorkView(), PromptView(), BoxView(),
              managed.LifeView(), managed.appender, managed.turnActive, managed.accepting)
    }

    /** Returns the cursor after the event; a closed log raises after the transcript has grown. */
    method Emit(e: Event) returns (cursor: Result<nat, string>)
      modifies this`transcript, this`jsonl, managed`events, managed`notifyPending
      ensures transcript == old(transcript) + [e]
      ensures jsonl == if logOpen then old(jsonl) + [e] else old(jsonl)
      ensures managed.events == if logOpen then old(managed.events) + [e] else old(managed.events)
      ensures LogView() == Append(old(LogView()), e) && WorkView() == old(WorkView()) && PromptView() == old(PromptView())
      ensures BoxView() == old(BoxView()) && managed.LifeView() == old(managed.LifeView())
      ensures cursor == if logOpen then Ok(|transcript|) else Err("I/O operation on closed file")
    {
      transcript := transcript + [e];
      if !logOpen {
        return Err("I/O operation on closed file");
      }
      jsonl := jsonl + [e];
      managed.RecordEvent(e);
      cursor := Ok(|transcript|);
    }

    // ----- helpers: parts of an action

    method BuildTurnPrompt(agent: AgentId, continues: bool) returns (delta: seq<Event>)
      requires Bounded(watermarks, |transcript|)
      modifies this`watermarks, this`sent
      ensures PromptView() == BuildPrompt(old(PromptView()), transcript, agent, continues)
      ensures delta ==
              if continues then Visible(transcript, Watermark(old(PromptView()), agent), |transcript|, agent) else []
      ensures LogView() == old(LogView()) && WorkView() == old(WorkView()) && BoxView() == old(BoxView())
      ensures watermarks == old(watermarks)[agent := |transcript|]
    {
      var snapshot := |transcript|;
      ghost var before := SentTo(Prompts(watermarks, sent), agent);
      if continues {
        delta := ContinuationDelta(transcript, if agent in watermarks then watermarks[agent] else 0, agent);
        sent := sent[agent := Sent(before.start, before.delivered + delta)];
      } else {
        delta := [];
        sent := sent[agent := Sent(snapshot, [])];
      }
      watermarks := watermarks[agent := snapshot];
    }

    method EmitNote(note: Stamp)
      modifies this`transcript, this`jsonl, managed`events, managed`notifyPending
      ensures LogView() == Append(old(LogView()), NoteOf(note, None))
      ensures WorkView() == old(WorkView()) && PromptView() == old(PromptView())
      ensures BoxView() == old(BoxView()) && managed.LifeView() == old(managed.LifeView())
    {
      var _ := Emit(NoteOf(note, None));
    }

    /** Note the turn, build the prompt, allocate the next turn number and launch the runner. */
    method OpenTurn(note: Stamp, agent: AgentId, stageIndex: int, directed: bool, continues: bool, ghost where: Pc)
      requires Bounded(watermarks, |transcript|)
      modifies this`transcript, this`jsonl, this`watermarks, this`sent, this`turns, this`pc
      modifies managed`events, managed`notifyPending, managed`turnActive
      ensures LogView() == Append(old(LogView()), NoteOf(note, Some(agent)))
      ensures PromptView() == BuildPrompt(old(PromptView()), transcript, agent, continues)
      ensures WorkView() == old(WorkView()).(turns := old(turns) + [Turn(agent, stageIndex, |transcript|, directed, InFlight)])
      ensures turns == old(turns) + [Turn(agent, stageIndex, |transcript|, directed, InFlight)]
      ensures BoxView() == old(BoxView()) && managed.LifeView() == old(managed.LifeView())
      ensures managed.turnActive && pc == where && watermarks[agent := |transcript|] == watermarks
    {
      var _ := Emit(NoteOf(note, Some(agent)));
      var _ := BuildTurnPrompt(agent, continues);
      AddTurns([Turn(agent, stageIndex, |transcript|, directed, InFlight)], where);
    }

    /** New turns, and the run is at work on them. */
    method AddTurns(added: seq<Turn>, ghost where: Pc)
      modifies this`turns, this`pc, managed`turnActive
      ensures turns == old(turns) + added && WorkView() == old(WorkView()).(turns := old(turns) + added)
      ensures LogView() == old(LogView()) && PromptView() == old(PromptView()) && BoxView() == old(BoxView())
      ensures managed.LifeView() == old(managed.LifeView()) && managed.turnActive && pc == where
    {
      turns := turns + added;
      managed.turnActive := true;
      pc := where;
    }

    /** The oldest post becomes the one in process, and its agent's turn opens. */
    method TakeAndOpen(note: Stamp, agent: AgentId, continues: bool)
      requires Bounded(watermarks, |transcript|) && managed.queue.items != [] && (pc.Between? || pc.Waiting?)
      modifies this`transcript, this`jsonl, this`watermarks, this`sent, this`turns, this`pc, this`current
      modifies managed`events, managed`notifyPending, managed`turnActive, managed.queue`items
      ensures managed.queue.items == old(managed.queue.items)[1..] && current == Some(old(managed.queue.items)[0])
      ensures LogView() == Append(old(LogView()), NoteOf(note, Some(agent)))
      ensures PromptView() == BuildPrompt(old(PromptView()), transcript, agent, continues)
      ensures WorkView() == old(WorkView()).(turns := old(turns) + [Turn(agent, |old(turns)| + 1, |transcript|, true, InFlight)])
      ensures turns == old(turns) + [Turn(agent, |old(turns)| + 1, |transcript|, true, InFlight)]
      ensures BoxView() == Dequeued(old(BoxView())) && managed.LifeView() == old(managed.LifeView()) && managed.turnActive
      ensures pc == Directed(if old(pc).Waiting? then ToWaiting else ToStages(old(pc).next))
    {
      current := managed.queue.GetNowait();
      OpenTurn(note, agent, |turns| + 1, true, continues, Directed(if pc.Waiting? then ToWaiting else ToStages(pc.next)));
    }

    method Enqueue(e: Event, input: Input) returns (cursor: Result<nat, string>)
      modifies this`transcript, this`jsonl, this`posted
      modifies managed`events, managed`notifyPending, managed.queue`items, managed.queue`unfinished
      ensures LogView() == Append(old(LogView()), e)
      ensures managed.queue.items == old(managed.queue.items) + [input]
      ensures managed.queue.unfinished == old(managed.queue.unfinished) + 1 && posted == old(posted) + [input]
      ensures BoxView() == SessionProtocol.Enqueue(old(BoxView()), input)
      ensures WorkView() == old(WorkView()) && managed.LifeView() == old(managed.LifeView())
      ensures logOpen ==> cursor == Ok(|transcript|) && managed.events == old(managed.events) + [e]
    {
      cursor := Emit(e);
      managed.queue.PutNowait(input);
      posted := posted + [input];
    }

    method SkipPost()
      requires managed.queue.items != []
      modifies this`consumed, managed`notifyPending, managed.queue`items, managed.queue`unfinished
      requires managed.queue.hook == managed
      ensures managed.queue.items == old(managed.queue.items)[1..] && managed.queue.unfinished == OneLess(old(managed.queue.unfinished))
      ensures consumed == old(consumed) + [old(managed.queue.items)[0]] && BoxView() == Skipped(old(BoxView()))
      ensures LogView() == old(LogView()) && WorkView() == old(WorkView()) && managed.LifeView() == old(managed.LifeView())
    {
      var item := managed.queue.GetNowait();
      consumed := consumed + [item.value];
      managed.queue.TaskDone();
    }

    method BeginMembers(members: seq<AgentId>, stage: nat, note: Stamp)
      modifies this`transcript, this`jsonl, this`watermarks, this`sent, this`turns, this`pc
      modifies managed`events, managed`notifyPending, managed`turnActive
      ensures LogView() == Append(old(LogView()), NoteOf(note, None))
      ensures PromptView() == MarkAll(old(PromptView()), transcript, members)
      ensures WorkView() == old(WorkView()).(turns := old(turns) + AllocateAll(members, stage + 1))
      ensures turns == old(turns) + AllocateAll(members, stage + 1) && managed.turnActive
      ensures BoxView() == old(BoxView()) && managed.LifeView() == old(managed.LifeView())
      ensures pc == Parallel(stage, |old(turns)|)
    {
      EmitNote(note);
      MarkMembers(members);
      var added := AllocateMembers(members, stage + 1);
      AddTurns(added, Parallel(stage, |turns|));
    }

    /** One snapshot for all members: each watermark moves to it. */
    method MarkMembers(members: seq<AgentId>)
      modifies this`watermarks, this`sent
      ensures PromptView() == MarkAll(old(PromptView()), transcript, members)
      ensures LogView() == old(LogView()) && WorkView() == old(WorkView()) && BoxView() == old(BoxView())
    {
      ghost var before := Prompts(watermarks, sent);
      var snapshot := |transcript|;
      assert members[..0] == [];
      for k := 0 to |members|
        invariant Prompts(watermarks, sent) == MarkAll(before, transcript, members[..k])
      {
        assert members[..k + 1][..k] == members[..k];
        watermarks := watermarks[members[k] := snapshot];
        sent := sent[members[k] := Sent(snapshot, [])];
      }
      assert members[..|members|] == members;
    }

    /** A turn for each member, in their order, before any of them starts. */
    method AllocateMembers(members: seq<AgentId>, stageIndex: int) returns (added: seq<Turn>)
      ensures added == AllocateAll(members, stageIndex)
    {
      added := [];
      for k := 0 to |members|
        invariant added == AllocateAll(members[..k], stageIndex)
      {
        added := added + [Turn(members[k], stageIndex, 0, false, Allocated)];
      }
      assert members[..|members|] == members;
    }

    /** The finalisers on the way out: the input in process is done, nothing is accepted any more, the appender goes. */
    method LeaveRun(ending: Ending)
      requires managed.queue.hook == managed && !pc.Announcing?
      modifies this`pc, this`current, this`dropped
      modifies managed`turnActive, managed`accepting, managed`appender, managed`notifyPending, managed.queue`unfinished
      ensures pc == Unwinding(ending) && !managed.turnActive && !managed.accepting && !managed.appender && current.None?
      ensures BoxView() == Abandoned(old(BoxView()))
      ensures LogView() == old(LogView()) && WorkView() == old(WorkView()) && PromptView() == old(PromptView())
      ensures managed.LifeView() == old(managed.LifeView())
    {
      hide LogView, WorkView, PromptView, BoxView, ManagedSession.LifeView;
      DropInput();
      LowerFlags(ending);
    }

    method LowerFlags(ghost ending: Ending)
      modifies this`pc, managed`turnActive, managed`accepting, managed`appender
      ensures pc == Unwinding(ending) && !managed.turnActive && !managed.accepting && !managed.appender
      ensures LogView() == old(LogView()) && WorkView() == old(WorkView()) && PromptView() == old(PromptView())
      ensures BoxView() == old(BoxView()) && managed.LifeView() == old(managed.LifeView())
    {
      managed.turnActive := false;
      managed.accepting := false;
      managed.appender := false;
      pc := Unwinding(ending);
    }

    /** The input in process is given up, and counted as done. */
    method DropInput()
      requires managed.queue.hook == managed
      modifies this`current, this`dropped, managed`notifyPending, managed.queue`unfinished
      ensures current.None? && BoxView() == Abandoned(old(BoxView()))
      ensures LogView() == old(LogView()) && WorkView() == old(WorkView()) && PromptView() == old(PromptView())
      ensures managed.LifeView() == old(managed.LifeView())
    {
      if current.Some? {
        dropped := dropped + [current.value];
        current := None;
        managed.queue.TaskDone();
      }
    }

    // ----- posts

    /**
     * Accepts exactly the posts the protocol accepts. An accepted one becomes the newest
     * event and the newest in the queue; a refused one changes nothing.
     */
    method PostMessage(time: string, human: bool, input: Input) returns (cursor: Result<nat, string>)
      requires Valid()
      modifies this`transcript, this`jsonl, this`posted
      modifies managed`events, managed`notifyPending, managed.queue`items, managed.queue`unfinished
      ensures Valid()
      ensures cursor.Ok? <==> old(PostAccepted(View())) && KnownTarget(plan, input)
      ensures cursor.Ok? ==>
                && managed.queue.items == old(managed.queue.items) + [input]
                && managed.events == old(managed.events) + [PostEvent(time, human, input)] && cursor.value == |managed.events|
      ensures cursor.Err? ==> View() == old(View())
    {
      hide History;
      ghost var s := View();
      AppenderMeansOpen(s);
      var refusal := RefusePost(input);
      if refusal.Some? {
        return Err(refusal.value);
      }
      hide PostAccepted, KnownTarget, Append;
      cursor := Enqueue(PostEvent(time, human, input), input);
      OpenAppends(s, PostEvent(time, human, input));
      KeptPost(s, time, human, input, View());
    }

    /** The validations of a post, in their order. */
    method RefusePost(input: Input) returns (refusal: Option<string>)
      requires !pc.Restored?
      ensures refusal.None? <==> PostAccepted(View()) && KnownTarget(plan, input)
    {
      if !Live(managed.status) {
        return Some("session is not live");
      }
      if !plan.interactive {
        return Some("session was not started with interactive input enabled");
      }
      if managed.status == AwaitingInput && !managed.accepting {
        return Some("session is no longer accepting input");
      }
      if input.target.Some? && input.target.value !in plan.members {
        return Some("unknown target");
      }
      refusal := if managed.appender then None else Some("session is read-only because it has no live runner");
    }

    /**
     * The draining loop takes the oldest post: a routed one opens a directed turn of its
     * agent, any other is consumed at once.
     */
    method TakeNextInput(note: Stamp, continues: bool) returns (taken: bool)
      requires Valid() && plan.interactive && (pc.Between? || pc.Waiting?)
      modifies this, managed`events, managed`notifyPending, managed`turnActive, managed.queue`items, managed.queue`unfinished
      ensures Valid()
      ensures taken <==> old(managed.queue.items) != []
      ensures !taken ==> View() == old(View())
      ensures taken ==>
                var post := old(managed.queue.items)[0];
                && managed.queue.items == old(managed.queue.items)[1..]
                && (Route(plan, post).None? ==> consumed == old(consumed) + [post] && turns == old(turns))
                && (Route(plan, post).Some? ==> current == Some(post) && NewTurn(old(turns), turns, Route(plan, post).value, true))
    {
      hide History;
      taken := managed.queue.items != [];
      if !taken {
        return;
      }
      if Route(plan, managed.queue.items[0]).None? {
        ConsumeUnrouted(note, continues);
      } else {
        OpenDirectedTurn(note, continues);
      }
    }

    method ConsumeUnrouted(ghost note: Stamp, ghost continues: bool)
      requires Valid() && plan.interactive && (pc.Between? || pc.Waiting?)
      requires managed.queue.items != [] && Route(plan, managed.queue.items[0]).None?
      modifies this`consumed, managed`notifyPending, managed.queue`items, managed.queue`unfinished
      ensures Valid() && managed.queue.items == old(managed.queue.items)[1..]
      ensures consumed == old(consumed) + [old(managed.queue.items)[0]]
    {
      hide History, Taken;
      ghost var s := View();
      SkipPost();
      TakenSkipped(s, note, continues);
      KeptTake(s, note, continues, View());
    }

    method OpenDirectedTurn(note: Stamp, continues: bool)
      requires Valid() && plan.interactive && (pc.Between? || pc.Waiting?)
      requires managed.queue.items != [] && Route(plan, managed.queue.items[0]).Some?
      modifies this`transcript, this`jsonl, this`watermarks, this`sent, this`turns, this`pc, this`current
      modifies managed`events, managed`notifyPending, managed`turnActive, managed.queue`items
      ensures Valid() && managed.queue.items == old(managed.queue.items)[1..]
      ensures current == Some(old(managed.queue.items)[0])
      ensures NewTurn(old(turns), turns, Route(plan, old(managed.queue.items)[0]).value, true)
    {
      hide History, Taken, Append, BuildPrompt, Visible, Route;
      ghost var s := View();
      WatermarksInRange(s);
      TakeAndOpen(note, Route(plan, managed.queue.items[0]).value, continues);
      KeptDirected(s, note, continues, View());
    }

    /** The idle timeout: accepting ends first, and from then on no post is accepted; one still in the queue is lost. */
    method DecideIdleClose()
      requires Valid() && pc.Waiting?
      modifies this`pc, managed`accepting, managed`notifyPending
      ensures Valid() && !PostAccepted(View()) && current.None?
      ensures posted == consumed + managed.queue.items && managed.queue.unfinished == |managed.queue.items|
    {
      hide History;
      ghost var s := View();
      managed.SetInputAccepting(false);
      pc := Closing;
      KeptClose(s, View());
      ClosedIsIdle(View());
    }

    // ----- stages

    /** A planned turn begins: the stage's agent runs, and its watermark is the end of the transcript. */
    method StartPlannedTurn(stage: nat, note: Stamp, continues: bool)
      requires Valid() && pc == Between(stage) && stage < |plan.stages| && |plan.stages[stage]| == 1 && managed.queue.items == []
      modifies this`transcript, this`jsonl, this`watermarks, this`sent, this`turns, this`pc
      modifies managed`events, managed`notifyPending, managed`turnActive
      ensures Valid() && pc == Planned(stage) && managed.turnActive
      ensures NewTurn(old(turns), turns, plan.stages[stage][0], false)
      ensures plan.stages[stage][0] in watermarks && watermarks[plan.stages[stage][0]] == |transcript|
    {
      hide History;
      ghost var s := View();
      WatermarksInRange(s);
      var agent := plan.stages[stage][0];
      OpenTurn(note, agent, stage + 1, false, continues, Planned(stage));
      KeptPlanned(s, note, continues, View());
    }

    /** A parallel stage begins: one turn for each member, numbered in member order before any of them starts. */
    method StartParallelStage(stage: nat, note: Stamp)
      requires Valid() && pc == Between(stage) && stage < |plan.stages| && |plan.stages[stage]| > 1 && managed.queue.items == []
      modifies this`transcript, this`jsonl, this`watermarks, this`sent, this`turns, this`pc
      modifies managed`events, managed`notifyPending, managed`turnActive
      ensures Valid() && pc == Parallel(stage, |old(turns)|) && |turns| == |old(turns)| + |plan.stages[stage]|
      ensures forall k :: 0 <= k < |plan.stages[stage]| ==>
                var t := turns[|old(turns)| + k]; t.agent == plan.stages[stage][k] && t.phase.Allocated?
    {
      hide History;
      ghost var s := View();
      BeginMembers(plan.stages[stage], stage, note);
      KeptParallel(s, note, View());
    }

    /** What a runner emits is attributed to its own agent and becomes an event, as long as the log is open. */
    method EmitFromRunner(i: nat, e: Event) returns (cursor: Result<nat, string>)
      requires Valid() && i < |turns| && MayEmit(turns[i]) && e.boundary.None?
      modifies this`transcript, this`jsonl, managed`events, managed`notifyPending
      ensures Valid()
      ensures cursor.Ok? <==> logOpen
      ensures managed.events == if logOpen then old(managed.events) + [e.(agent := Some(turns[i].agent))] else old(managed.events)
    {
      hide History;
      ghost var s := View();
      var owned := e.(agent := Some(turns[i].agent));
      cursor := Emit(owned);
      KeptEmit(s, i, owned, View());
    }

    /** The outcome is settled, and the answer a completed turn's span gives is computed in the same stretch. */
    method ArbitrateTurn(i: nat, outcome: TurnOutcome)
      requires Valid() && InRun(pc) && i < |turns| && turns[i].phase.InFlight? && WellFormedOutcome(outcome)
      modifies this`turns
      ensures Valid() && |turns| == |old(turns)| && turns[i].agent == old(turns)[i].agent
      ensures turns[i].phase ==
              Arbitrated(outcome, if outcome.kind.Completed? then TurnAnswer(transcript, turns[i].span, turns[i].agent) else None)
    {
      hide History;
      ghost var s := View();
      var turn := turns[i];
      var answer: Option<Answer> := None;
      if outcome.kind.Completed? {
        answer := FindTurnAnswer(transcript, turn.span, turn.agent);
      }
      turns := turns[i := turn.(phase := Arbitrated(outcome, answer))];
      KeptArbitrate(s, i, outcome, View());
    }

    /**
     * Publishes the arbitrated turn's record, or gives the turn up where the record
     * constructor refuses it. Neither duplicate check can fire. The reported answers stay
     * those of the events.
     */
    method CommitOutcome(i: nat, note: Stamp) returns (published: bool)
      requires Valid() && InRun(pc) && i < |turns| && turns[i].phase.Arbitrated? && turns[i].agent in plan.backends
      modifies this`transcript, this`jsonl, this`turns, this`committed
      modifies managed`events, managed`outcomes, managed`ledger, managed`notifyPending
      ensures Valid() && |turns| == |old(turns)|
      ensures published ==>
                Recordable(plan, old(turns[i]), i) && managed.outcomes == old(managed.outcomes) + [RecordOf(plan, old(turns[i]), i)]
      ensures !published ==>
                !Recordable(plan, old(turns[i]), i) && managed.outcomes == old(managed.outcomes) && transcript == old(transcript)
      ensures turns[i] == old(turns[i]).(phase := if published then Settle(old(turns[i])).phase else Dropped)
      ensures CutAll(managed.ledger) == DerivedAnswers(managed.events)
    {
      hide History;
      var turn := turns[i];
      var made := NewRecord(TurnId(i + 1), turn.stageIndex, turn.agent, plan.backends[turn.agent], turn.phase.outcome);
      hide NewRecord, RecordOf;
      published := made.Ok?;
      if published {
        PublishTurn(i, made.value, note);
      } else {
        RefuseTurn(i);
      }
      hide Valid, DerivedAnswers, CutAll;
    }

    method PublishTurn(i: nat, record: TurnRecord, note: Stamp)
      requires Valid() && InRun(pc) && i < |turns| && turns[i].phase.Arbitrated? && turns[i].agent in plan.backends
      requires NewRecord(TurnId(i + 1), turns[i].stageIndex, turns[i].agent, plan.backends[turns[i].agent], turns[i].phase.outcome) == Ok(record)
      modifies this`transcript, this`jsonl, this`turns, this`committed
      modifies managed`events, managed`outcomes, managed`ledger, managed`notifyPending
      ensures Valid() && turns == old(turns)[i := Settle(old(turns[i]))]
      ensures managed.outcomes == old(managed.outcomes) + [RecordOf(plan, old(turns[i]), i)]
      ensures CutAll(managed.ledger) == DerivedAnswers(managed.events)
    {
      hide History, NewRecord;
      ghost var s := View();
      ArbitratedIsReady(s, i, note);
      PublishRecord(i, record, note);
      CommittedIs(s, i, note);
      hide RecordOf, Append, Committed, WithRecord;
      KeptCommit(s, i, note, View());
      LedgerIsDerived(View());
    }

    method RefuseTurn(i: nat)
      requires Valid() && InRun(pc) && i < |turns| && turns[i].phase.Arbitrated? && turns[i].agent in plan.backends
      requires !Recordable(plan, turns[i], i)
      modifies this`turns
      ensures Valid() && turns == old(turns)[i := old(turns[i]).(phase := Dropped)]
      ensures CutAll(managed.ledger) == DerivedAnswers(managed.events)
    {
      hide History, Recordable;
      ghost var s := View();
      turns := turns[i := turns[i].(phase := Dropped)];
      KeptRefuse(s, i, View());
      LedgerIsDerived(View());
    }

    /** Boundary event, outcome, committed turn and answer, together. */
    method PublishRecord(i: nat, record: TurnRecord, note: Stamp)
      requires i < |turns| && turns[i].phase.Arbitrated? && logOpen && i !in committed
      requires forall r :: r in managed.outcomes ==> r.turnId != record.turnId
      requires turns[i].phase.answer.Some? ==> turns[i].phase.answer.value.agent != ""
      modifies this`transcript, this`jsonl, this`turns, this`committed
      modifies managed`events, managed`outcomes, managed`ledger, managed`notifyPending
      ensures LogView() == Append(old(LogView()), Boundary(note.time, note.text, record))
      ensures WorkView() == WithRecord(old(WorkView()), i, record)
      ensures managed.LifeView() == old(managed.LifeView()) && PromptView() == old(PromptView()) && BoxView() == old(BoxView())
    {
      hide Upsert, Settle, Boundary, Recordable, RecordOf;
      var boundary := Boundary(note.time, note.text, record);
      WriteBoundary(boundary);
      var accepted := managed.RecordTurnOutcome(record, boundary);
      assert accepted;
      SettleTurn(i);
    }

    /** The boundary goes to the transcript and the file; the daemon's list gets it with the outcome. */
    method WriteBoundary(boundary: Event)
      modifies this`transcript, this`jsonl
      ensures transcript == old(transcript) + [boundary] && jsonl == old(jsonl) + [boundary]
    {
      transcript := transcript + [boundary];
      jsonl := jsonl + [boundary];
    }

    method SettleTurn(i: nat)
      requires i < |turns| && turns[i].phase.Arbitrated?
      requires turns[i].phase.answer.Some? ==> turns[i].phase.answer.value.agent != ""
      modifies this`turns, this`committed, managed`ledger
      ensures turns == old(turns)[i := Settle(old(turns)[i])] && committed == old(committed) + [i]
      ensures var answer := old(turns)[i].phase.answer;
              managed.ledger == if answer.Some? then Upsert(old(managed.ledger), answer.value) else old(managed.ledger)
    {
      hide Settle, Upsert;
      var turn := turns[i];
      committed := committed + [i];
      turns := turns[i := Settle(turn)];
      if turn.phase.answer.Some? {
        managed.RecordSessionAnswer(turn.phase.answer.value);
      }
    }

    /**
     * After the last turn: the run goes on only if the turn completed and no stop was asked
     * for, a directed post is then consumed, and otherwise the run leaves with its ending.
     */
    method FinishTurn(directed: bool)
      requires Valid() && (if directed then pc.Directed? else pc.Planned?) && LastFinished(plan, turns)
      modifies this`pc, this`current, this`consumed, this`answeredBy, this`dropped
      modifies managed`turnActive, managed`accepting, managed`appender, managed`notifyPending, managed.queue`unfinished
      ensures Valid() && !managed.turnActive
      ensures pc.Unwinding? <==> managed.stopRequested || !CompletedTurn(turns[|turns| - 1])
      ensures turns[|turns| - 1].phase.Dropped? ==> pc == Unwinding(BrokenRun)
      ensures !directed && !pc.Unwinding? ==> pc == Between(old(pc).stage + 1)
      ensures !pc.Unwinding? && old(pc).Directed? && old(current).Some? ==>
                current.None? && consumed == old(consumed) + [old(current).value]
    {
      hide Valid;
      var last := turns[|turns| - 1];
      if last.phase.Dropped? {
        LeaveAfterTurn(BrokenRun);
      } else if managed.stopRequested {
        LeaveAfterTurn(CancelledRun);
      } else if !CompletedTurn(last) {
        var record := RecordOf(plan, last, |turns| - 1);
        LeaveAfterTurn(if record.outcome.code.Some? then FailedRun(Project(record)) else BrokenRun);
      } else {
        GoOnAfterTurn(directed);
      }
    }

    method LeaveAfterTurn(ending: Ending)
      requires Valid() && (pc.Planned? || pc.Directed?) && LastFinished(plan, turns) && EndingOf(View()) == Some(ending)
      modifies this`pc, this`current, this`dropped
      modifies managed`turnActive, managed`accepting, managed`appender, managed`notifyPending, managed.queue`unfinished
      ensures Valid() && !managed.turnActive && pc == Unwinding(ending)
    {
      hide History, EndingOf, LastFinished;
      ghost var s := View();
      LeaveRun(ending);
      KeptFinish(s, View());
    }

    method GoOnAfterTurn(directed: bool)
      requires Valid() && (if directed then pc.Directed? else pc.Planned?) && LastFinished(plan, turns) && EndingOf(View()) == None
      modifies this`pc, this`current, this`consumed, this`answeredBy, managed`turnActive, managed`notifyPending, managed.queue`unfinished
      ensures Valid() && !managed.turnActive && !pc.Unwinding?
      ensures !directed ==> pc == Between(old(pc).stage + 1)
      ensures directed && old(current).Some? ==> current.None? && consumed == old(consumed) + [old(current).value]
    {
      hide History, EndingOf;
      ghost var s := View();
      GoOn(directed);
      hide LastFinished;
      KeptFinish(s, View());
    }

    method Resume(ghost where: Pc)
      modifies this`pc, managed`turnActive
      ensures pc == where && !managed.turnActive
      ensures LogView() == old(LogView()) && WorkView() == old(WorkView()) && PromptView() == old(PromptView())
      ensures BoxView() == old(BoxView()) && managed.LifeView() == old(managed.LifeView())
    {
      managed.turnActive := false;
      pc := where;
    }

    /** The post in process is done, by the last turn. */
    method ConsumeInput()
      requires turns != [] && managed.queue.hook == managed
      modifies this`current, this`consumed, this`answeredBy, managed`notifyPending, managed.queue`unfinished
      ensures current.None? && consumed == old(consumed) + (if old(current).Some? then [old(current).value] else [])
      ensures BoxView() == Answered(old(BoxView()), |turns| - 1)
      ensures LogView() == old(LogView()) && WorkView() == old(WorkView()) && PromptView() == old(PromptView())
      ensures managed.LifeView() == old(managed.LifeView())
    {
      managed.queue.TaskDone();
      consumed := consumed + (if current.Some? then [current.value] else []);
      answeredBy := answeredBy + [|turns| - 1];
      current := None;
    }

    /** Back to the stages, or to where a directed post was taken, which is then done. */
    method GoOn(directed: bool)
      requires (if directed then pc.Directed? else pc.Planned?) && turns != [] && managed.queue.hook == managed
      modifies this`pc, this`current, this`consumed, this`answeredBy, managed`turnActive, managed`notifyPending, managed.queue`unfinished
      ensures !managed.turnActive
      ensures !directed ==> pc == Between(old(pc).stage + 1)
      ensures directed ==> pc == (if old(pc).back.ToWaiting? then Waiting else Between(old(pc).back.next)) && current.None?
      ensures directed ==> consumed == old(consumed) + (if old(current).Some? then [old(current).value] else [])
      ensures BoxView() == if directed then Answered(old(BoxView()), |turns| - 1) else old(BoxView())
      ensures LogView() == old(LogView()) && WorkView() == old(WorkView()) && PromptView() == old(PromptView())
      ensures managed.LifeView() == old(managed.LifeView())
    {
      if directed {
        ConsumeInput();
        Resume(if pc.back.ToWaiting? then Waiting else Between(pc.back.next));
      } else {
        Resume(Between(pc.stage + 1));
      }
    }

    /** All members are over: the stage goes on exactly if none was refused and some completed with a usable message. */
    method FinishParallelStage(stage: nat, first: nat, note: Stamp)
      requires Valid() && pc == Parallel(stage, first) && forall i :: first <= i < |turns| ==> Finished(turns[i])
      modifies this`transcript, this`jsonl, this`pc, this`current, this`dropped
      modifies managed`events, managed`notifyPending, managed`turnActive, managed`accepting, managed`appender, managed.queue`unfinished
      ensures Valid() && !managed.turnActive
      ensures pc == Between(stage + 1) <==>
                !managed.stopRequested && !SomeRefused(turns, first) && SomeAccepted(turns, first)
      ensures pc != Between(stage + 1) ==> pc.Unwinding?
    {
      hide Valid, SomeRefused, SomeAccepted, Finished;
      var refused, accepted := CountMembers(first);
      if managed.stopRequested {
        LeaveStage(stage, first, CancelledRun, note);
      } else if refused > 0 {
        LeaveStage(stage, first, BrokenRun, note);
      } else if accepted == 0 {
        LeaveUnaccepted(stage, first, note);
      } else {
        GoOnAfterStage(stage, first, note);
      }
    }

    method LeaveStage(stage: nat, first: nat, ending: Ending, note: Stamp)
      requires Valid() && pc == Parallel(stage, first) && forall i :: first <= i < |turns| ==> Finished(turns[i])
      requires if managed.stopRequested then ending == CancelledRun else ending == BrokenRun && SomeRefused(turns, first)
      modifies this`pc, this`current, this`dropped
      modifies managed`notifyPending, managed`turnActive, managed`accepting, managed`appender, managed.queue`unfinished
      ensures Valid() && !managed.turnActive && pc == Unwinding(ending)
    {
      hide History, ParallelFinished, SomeRefused, Finished;
      ghost var s := View();
      LeaveRun(ending);
      if s.life.stopRequested {
        ParallelStopped(s, note);
      } else {
        ParallelRefused(s, note);
      }
      KeptParallelFinish(s, note, View());
    }

    method EmitAndLeave(note: Stamp, ending: Ending)
      requires managed.queue.hook == managed && !pc.Announcing?
      modifies this`transcript, this`jsonl, this`pc, this`current, this`dropped
      modifies managed`events, managed`notifyPending, managed`turnActive, managed`accepting, managed`appender, managed.queue`unfinished
      ensures LogView() == Append(old(LogView()), NoteOf(note, None))
      ensures pc == Unwinding(ending) && !managed.turnActive && !managed.accepting && !managed.appender && current.None?
      ensures BoxView() == Abandoned(old(BoxView()))
      ensures WorkView() == old(WorkView()) && PromptView() == old(PromptView())
      ensures managed.LifeView() == old(managed.LifeView())
    {
      EmitNote(note);
      LeaveRun(ending);
    }

    method LeaveUnaccepted(stage: nat, first: nat, note: Stamp)
      requires Valid() && pc == Parallel(stage, first) && forall i :: first <= i < |turns| ==> Finished(turns[i])
      requires !managed.stopRequested && !SomeRefused(turns, first) && !SomeAccepted(turns, first)
      modifies this`transcript, this`jsonl, this`pc, this`current, this`dropped
      modifies managed`events, managed`notifyPending, managed`turnActive, managed`accepting, managed`appender, managed.queue`unfinished
      ensures Valid() && !managed.turnActive && pc.Unwinding?
    {
      hide History, ParallelFinished, Append, SomeRefused, SomeAccepted, Finished, Bare;
      ghost var s := View();
      EmitAndLeave(note, FailedRun(Bare(ParallelStageNoAcceptedMember, Some(stage + 1))));
      ParallelUnaccepted(s, note);
      KeptParallelFinish(s, note, View());
    }

    method GoOnAfterStage(stage: nat, first: nat, note: Stamp)
      requires Valid() && pc == Parallel(stage, first) && forall i :: first <= i < |turns| ==> Finished(turns[i])
      requires !managed.stopRequested && !SomeRefused(turns, first) && SomeAccepted(turns, first)
      modifies this`transcript, this`jsonl, this`pc, managed`events, managed`notifyPending, managed`turnActive
      ensures Valid() && !managed.turnActive && pc == Between(stage + 1)
    {
      hide History, ParallelFinished, Append, SomeRefused, SomeAccepted, Finished;
      ghost var s := View();
      EmitNote(note);
      managed.turnActive := false;
      pc := Between(stage + 1);
      ParallelAccepted(s, note);
      KeptParallelFinish(s, note, View());
    }

    method CountMembers(first: nat) returns (refused: nat, accepted: nat)
      ensures refused > 0 <==> SomeRefused(turns, first)
      ensures accepted > 0 <==> SomeAccepted(turns, first)
    {
      refused, accepted := 0, 0;
      for i := first to if first <= |turns| then |turns| else first
        invariant refused > 0 <==> exists k :: first <= k < i && turns[k].phase.Dropped?
        invariant accepted > 0 <==> exists k :: first <= k < i && Accepted(turns[k])
      {
        if turns[i].phase.Dropped? {
          refused := refused + 1;
        }
        if CompletedTurn(turns[i]) && turns[i].phase.answer.Some? {
          assert Accepted(turns[i]);
          accepted := accepted + 1;
        }
      }
    }

    /** After the last stage of an interactive session: it accepts posts, and is settled exactly if none is unfinished. */
    method AnnounceAwaitingInput(note: Stamp)
      requires Valid() && plan.interactive && pc.Between? && pc.next >= |plan.stages| && managed.queue.items == []
      modifies this`pc, managed`accepting, managed`notifyPending, managed`status, managed`failure, managed`endedAt
      ensures Valid() && PostAccepted(View()) == managed.appender
      ensures ResultSettled(View()) <==> managed.queue.unfinished == 0
    {
      hide History;
      ghost var s := View();
      RunningWhileStaged(s);
      managed.SetInputAccepting(true);
      var _ := managed.SetStatusNow(AwaitingInput, None, note.time);
      pc := Announcing;
      KeptAnnounce(s, note, View());
    }

    // ----- the end, and what clients are told

    /** The session's task after the referee has left: the status is terminal, unless a stop will make it so; a failure exists exactly if it is failed. */
    method ConcludeRun(ending: Ending, time: string)
      requires Valid() && pc == Unwinding(ending) && !logOpen
      modifies this`pc, managed`status, managed`failure, managed`endedAt, managed`events, managed`notifyPending
      ensures Valid() && pc.Ended?
      ensures Terminal(managed.status) || managed.stopRequested
      ensures managed.failure.Some? <==> managed.status.Failed?
      ensures Terminal(old(managed.status)) ==> managed.status == old(managed.status)
    {
      hide History;
      ghost var s := View();
      managed.Conclude(ending, time);
      pc := Ended;
      KeptConclude(s, time, View());
      FailureMeansFailed(View());
    }

    /** A settled live result is idle and carries the answers that its events give; a heartbeat carries none. */
    method BuildResultNow() returns (r: SessionResult)
      requires Valid()
      ensures r == BuildResult(View())
      ensures r.settled && !Terminal(managed.status) ==>
                && managed.queue.items == [] && current.None? && !managed.turnActive && Closed(turns)
      ensures r.answers == if r.settled then DerivedAnswers(managed.events) else []
    {
      hide History;
      ghost var s := View();
      LedgerIsDerived(s);
      if ResultSettled(s) && !Terminal(s.life.status) {
        SettledNow(s);
      }
      var settled := managed.IsSettled();
      r := SessionResult(managed.status, settled, |managed.events|, if settled then CutAll(managed.ledger) else []);
    }

    // ----- actions in sequence

    lemma StagedAgentIsKnown(stage: nat)
      requires Valid() && stage < |plan.stages| && |plan.stages[stage]| == 1
      ensures plan.stages[stage][0] in plan.backends
    {
      hide Legal, After;
      var run :| run in History(View());
    }

    /**
     * A planned turn from its start to its finish, with whatever its runner emits: it ends
     * back at the stages with one more published outcome, or on the way out.
     */
    method RunPlannedTurn(stage: nat, note: Stamp, continues: bool, emitted: seq<Event>, outcome: TurnOutcome)
      requires Valid() && pc == Between(stage) && stage < |plan.stages| && |plan.stages[stage]| == 1 && managed.queue.items == []
      requires WellFormedOutcome(outcome) && (forall k :: 0 <= k < |emitted| ==> emitted[k].boundary.None?)
      modifies this, managed, managed.queue
      ensures Valid() && (pc == Between(stage + 1) || pc.Unwinding?)
      ensures pc == Between(stage + 1) ==> |managed.outcomes| == |old(managed.outcomes)| + 1
      ensures !outcome.kind.Completed? ==> pc.Unwinding?
    {
      hide Valid, View, Recordable, RecordOf, TurnAnswer, WellFormedOutcome, DerivedAnswers, CutAll;
      StagedAgentIsKnown(stage);
      StartPlannedTurn(stage, note, continues);
      var i := |turns| - 1;
      for k := 0 to |emitted|
        invariant Valid() && pc == Planned(stage) && |turns| == i + 1 && turns[i].phase.InFlight?
        invariant turns[i].agent == plan.stages[stage][0]
        invariant managed.outcomes == old(managed.outcomes)
      {
        var _ := EmitFromRunner(i, emitted[k]);
      }
      ArbitrateTurn(i, outcome);
      var published := CommitOutcome(i, note);
      FinishTurn(false);
    }
  }

  /** One more turn, in flight, of that agent. */
  predicate NewTurn(before: seq<Turn>, after: seq<Turn>, agent: AgentId, directed: bool) {
    && |after| == |before| + 1 && after[..|before|] == before
    && after[|before|].agent == agent && after[|before|].directed == directed && after[|before|].phase.InFlight?
  }

  function WithRecord(w: Work, i: nat, record: TurnRecord): Work
    requires i < |w.turns| && w.turns[i].phase.Arbitrated?
  {
    var answer := w.turns[i].phase.answer;
    Work(w.turns[i := Settle(w.turns[i])], w.committed + [i], w.outcomes + [record],
         if answer.Some? then Upsert(w.ledger, answer.value) else w.ledger)
  }

  lemma CommittedIs(s: Session, i: nat, note: Stamp)
    requires HasTurn(s, i) && Committable(s.plan, s.work.turns[i], i)
    ensures var record := RecordOf(s.plan, s.work.turns[i], i);
            Committed(s, i, note) ==
            s.(log := Append(s.log, Boundary(note.time, note.text, record)), work := WithRecord(s.work, i, record))
  {
    hide Recordable, RecordOf, Append;
  }

  // ----- what the methods use of the invariant

  lemma KeptPost(s: Session, time: string, human: bool, input: Input, t: Session)
    requires History(s) != iset{} && PostAccepted(s) && KnownTarget(s.plan, input) && t == Posted(s, time, human, input)
    ensures History(t) != iset{}
  {
    hide History;
    ReachableSteps(s, OnInput(Post(time, human, input)));
  }

  lemma KeptTake(s: Session, note: Stamp, continues: bool, t: Session)
    requires History(s) != iset{} && s.inbox.queue != [] && s.plan.interactive && (s.pc.Between? || s.pc.Waiting?) && t == Taken(s, note, continues)
    ensures History(t) != iset{}
  {
    hide History;
    ReachableSteps(s, OnInput(TakeInput(note, continues)));
  }

  lemma KeptClose(s: Session, t: Session)
    requires History(s) != iset{} && s.pc.Waiting? && t == s.(pc := Closing, accepting := false)
    ensures History(t) != iset{}
  {
    hide History;
    ReachableSteps(s, OnInput(IdleClose));
  }

  lemma KeptPlanned(s: Session, note: Stamp, continues: bool, t: Session)
    requires History(s) != iset{} && StageEnabled(s, StartPlanned(note, continues)) && s.plan.stages[s.pc.next] != [] && t == PlannedStarted(s, note, continues)
    ensures History(t) != iset{}
  {
    hide History;
    ReachableSteps(s, OnStage(StartPlanned(note, continues)));
  }

  lemma KeptParallel(s: Session, note: Stamp, t: Session)
    requires History(s) != iset{} && StageEnabled(s, StartParallel(note)) && t == ParallelStarted(s, note)
    ensures History(t) != iset{}
  {
    hide History;
    ReachableSteps(s, OnStage(StartParallel(note)));
  }

  lemma KeptEmit(s: Session, i: nat, e: Event, t: Session)
    requires History(s) != iset{} && TurnEnabled(s, RunnerEmits(i, e)) && t == Emit(s, e)
    ensures History(t) != iset{}
  {
    hide History;
    ReachableSteps(s, OnTurn(RunnerEmits(i, e)));
  }

  lemma KeptArbitrate(s: Session, i: nat, o: TurnOutcome, t: Session)
    requires History(s) != iset{} && TurnEnabled(s, Arbitrate(i, o)) && t == TurnArbitrated(s, i, o)
    ensures History(t) != iset{}
  {
    hide History;
    ReachableSteps(s, OnTurn(Arbitrate(i, o)));
  }

  lemma KeptRefuse(s: Session, i: nat, t: Session)
    requires History(s) != iset{} && TurnEnabled(s, Refuse(i)) && t == TurnRefused(s, i)
    ensures History(t) != iset{}
  {
    hide History;
    ReachableSteps(s, OnTurn(Refuse(i)));
  }

  lemma KeptCommit(s: Session, i: nat, note: Stamp, t: Session)
    requires History(s) != iset{} && TurnEnabled(s, Commit(i, note)) && t == Committed(s, i, note)
    ensures History(t) != iset{}
  {
    hide History;
    ReachableSteps(s, OnTurn(Commit(i, note)));
  }

  lemma KeptFinish(s: Session, t: Session)
    requires History(s) != iset{} && (s.pc.Planned? || s.pc.Directed?) && LastFinished(s.plan, s.work.turns) && t == TurnFinished(s)
    ensures History(t) != iset{}
  {
    hide History;
    ReachableSteps(s, OnStage(FinishTurn));
  }

  lemma KeptParallelFinish(s: Session, note: Stamp, t: Session)
    requires History(s) != iset{} && StageEnabled(s, FinishParallel(note)) && t == ParallelFinished(s, note)
    ensures History(t) != iset{}
  {
    hide History;
    ReachableSteps(s, OnStage(FinishParallel(note)));
  }

  lemma KeptAnnounce(s: Session, note: Stamp, t: Session)
    requires History(s) != iset{} && StageEnabled(s, FinishStages(note)) && t == StagesFinished(s, note)
    ensures History(t) != iset{}
  {
    hide History;
    ReachableSteps(s, OnStage(FinishStages(note)));
  }

  lemma KeptConclude(s: Session, time: string, t: Session)
    requires History(s) != iset{} && s.pc.Unwinding? && !s.log.open && t == Concluded(s, time)
    ensures History(t) != iset{}
  {
    hide History;
    ReachableSteps(s, OnExit(Conclude(time)));
  }

  /** An arbitrated turn's record, if the constructor accepts it, can be published at once: neither duplicate check fires. */
  lemma ArbitratedIsReady(s: Session, i: nat, note: Stamp)
    requires History(s) != iset{} && InRun(s.pc) && HasTurn(s, i) && s.work.turns[i].phase.Arbitrated? && s.work.turns[i].agent in s.plan.backends
    ensures Recordable(s.plan, s.work.turns[i], i) ==> ReadyToCommit(s, i)
    ensures var t := s.work.turns[i];
            var made := NewRecord(TurnId(i + 1), t.stageIndex, t.agent, s.plan.backends[t.agent], t.phase.outcome);
            made.Ok? ==> made.value == RecordOf(s.plan, t, i)
  {
    ReachableKept(s);
    assert WellFormedTurn(s.plan, s.work.turns[i]);
    hide History, WellFormedRecord, WellFormedTurn;
    if Recordable(s.plan, s.work.turns[i], i) {
      CommitIsReady(s, i, note);
    }
  }

  // ----- the four ways out of a parallel stage

  lemma ParallelStopped(s: Session, note: Stamp)
    requires s.pc.Parallel? && s.life.stopRequested
    ensures ParallelFinished(s, note) == Unwind(s.(turnActive := false), CancelledRun)
  {}

  lemma ParallelRefused(s: Session, note: Stamp)
    requires s.pc.Parallel? && !s.life.stopRequested && SomeRefused(s.work.turns, s.pc.first)
    ensures ParallelFinished(s, note) == Unwind(s.(turnActive := false), BrokenRun)
  {}

  lemma ParallelUnaccepted(s: Session, note: Stamp)
    requires s.pc.Parallel? && !s.life.stopRequested
    requires !SomeRefused(s.work.turns, s.pc.first) && !SomeAccepted(s.work.turns, s.pc.first)
    ensures ParallelFinished(s, note) ==
            Unwind(s.(turnActive := false, log := Append(s.log, NoteOf(note, None))),
                   FailedRun(Bare(ParallelStageNoAcceptedMember, Some(s.pc.stage + 1))))
  {}

  lemma ParallelAccepted(s: Session, note: Stamp)
    requires s.pc.Parallel? && !s.life.stopRequested
    requires !SomeRefused(s.work.turns, s.pc.first) && SomeAccepted(s.work.turns, s.pc.first)
    ensures ParallelFinished(s, note) ==
            s.(turnActive := false, log := Append(s.log, NoteOf(note, None)), pc := Between(s.pc.stage + 1))
  {}

  // ----- taking a post

  lemma TakenSkipped(s: Session, note: Stamp, continues: bool)
    requires s.inbox.queue != [] && (s.pc.Between? || s.pc.Waiting?) && Route(s.plan, s.inbox.queue[0]).None?
    ensures Taken(s, note, continues) == s.(inbox := Skipped(s.inbox))
  {}

  lemma KeptDirected(s: Session, note: Stamp, continues: bool, t: Session)
    requires History(s) != iset{} && s.inbox.queue != [] && s.plan.interactive && (s.pc.Between? || s.pc.Waiting?)
    requires Route(s.plan, s.inbox.queue[0]).Some?
    requires var a := Route(s.plan, s.inbox.queue[0]).value;
             && t.log == Append(s.log, NoteOf(note, Some(a)))
             && t.prompts == BuildPrompt(s.prompts, t.log.transcript, a, continues)
             && t.work == s.work.(turns := s.work.turns + [Turn(a, |s.work.turns| + 1, |t.log.transcript|, true, InFlight)])
    requires t.inbox == Dequeued(s.inbox) && t.turnActive
    requires t.pc == Directed(if s.pc.Waiting? then ToWaiting else ToStages(s.pc.next))
    requires t.plan == s.plan && t.life == s.life && t.appender == s.appender && t.accepting == s.accepting
    ensures History(t) != iset{}
  {
    assert t == Taken(s, note, continues) by {
      hide History, Append, BuildPrompt;
    }
    hide History;
    KeptTake(s, note, continues, t);
  }

  lemma OpenAppends(s: Session, e: Event)
    requires s.log.open
    ensures Append(s.log, e).events == s.log.events + [e]
    ensures Append(s.log, e).transcript == s.log.transcript + [e]
  {}

  lemma WatermarksInRange(s: Session)
    requires History(s) != iset{}
    ensures Bounded(s.prompts.watermarks, |s.log.transcript|)
  {
    ReachableKept(s);
  }

  lemma AppenderMeansOpen(s: Session)
    requires History(s) != iset{}
    ensures s.appender ==> s.log.open && s.log.transcript == s.log.events
  {
    ReachableKept(s);
  }

  lemma ClosedIsIdle(s: Session)
    requires History(s) != iset{} && s.pc.Closing?
    ensures !PostAccepted(s) && s.inbox.current.None?
    ensures s.inbox.posted == s.inbox.consumed + s.inbox.queue && s.inbox.unfinished == |s.inbox.queue|
  {
    hide LogInv, TurnInv, CommitInv, PromptInv, LedgerInv, LifeInv, AnsweredInv, DirectedInv;
    ReachableKept(s);
  }

  lemma RunningWhileStaged(s: Session)
    requires History(s) != iset{} && s.pc.Between?
    ensures s.life.status.Running?
  {
    ReachableKept(s);
  }

  lemma FailureMeansFailed(s: Session)
    requires History(s) != iset{}
    ensures s.life.failure.Some? <==> s.life.status.Failed?
  {
    ReachableKept(s);
  }

  lemma LedgerIsDerived(s: Session)
    requires History(s) != iset{} && !s.pc.Restored?
    ensures CutAll(s.work.ledger) == DerivedAnswers(s.log.events)
  {
    ReachableKept(s);
  }

  lemma SettledNow(s: Session)
    requires History(s) != iset{} && !s.pc.Restored? && ResultSettled(s) && !Terminal(s.life.status)
    ensures s.inbox.queue == [] && s.inbox.current.None? && !s.turnActive && Closed(s.work.turns)
  {
    ReachableKept(s);
    SettledIsIdle(s);
  }

  /** An arbitrated turn has no outcome yet, under its number or under its identifier. */
  lemma FirstOutcome(s: Session, i: nat)
    requires CommitInv(s.plan, s.work, s.log.jsonl) && i < |s.work.turns| && s.work.turns[i].phase.Arbitrated?
    ensures i !in s.work.committed
    ensures forall r :: r in s.work.outcomes ==> r.turnId != TurnId(i + 1)
  {
    hide WellFormedRecord, Boundaries, TurnId;
    forall r | r in s.work.outcomes ensures r.turnId != TurnId(i + 1) {
      var k :| 0 <= k < |s.work.outcomes| && s.work.outcomes[k] == r;
      if r.turnId == TurnId(i + 1) {
        TurnIdInjective(s.work.committed[k] + 1, i + 1);
      }
    }
  }

  lemma OwnAnswer(s: Session, i: nat)
    requires History(s) != iset{} && !s.pc.Restored? && i < |s.work.turns| && s.work.turns[i].phase.Arbitrated?
    requires s.work.turns[i].phase.answer.Some?
    ensures s.work.turns[i].phase.answer.value.agent != ""
  {
    ReachableKept(s);
    var t := s.work.turns[i];
    assert WellFormedTurn(s.plan, t);
    assert SpanAgrees(Derive(s.log.events), s.log.transcript, t);
    ScanMeaning(s.log.transcript, t.span, |s.log.transcript|, t.agent);
  }

  /** No reachable session can refuse a commit, and prompts always find their watermark in range. */
  lemma CommitIsReady(s: Session, i: nat, note: Stamp)
    requires History(s) != iset{} && TurnEnabled(s, Commit(i, note))
    ensures ReadyToCommit(s, i) && Bounded(s.prompts.watermarks, |s.log.transcript|)
  {
    ReachableKept(s);
    FirstOutcome(s, i);
    if s.work.turns[i].phase.answer.Some? {
      OwnAnswer(s, i);
    }
  }
}
