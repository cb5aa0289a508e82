/**
 * Which message is an agent's answer. The referee scans the span of each completed turn
 * (agent_collab/referee.py, `_find_turn_answer`); a restored session folds once over the
 * persisted events (agent_collab/daemon.py, `_derive_restored_answers`).
 */
module Answers {
  import opened Common
  import opened Outcomes
  import opened Events
  import Utf8

  const MAX_FULL_TOOL_BYTES := 65536

  datatype Answer = Answer(agent: AgentId, text: string, eventId: nat, time: string)

  /** The last usable message seen in a span, and the last one marked final. */
  datatype Slot = Slot(last: Option<Answer>, final: Option<Answer>)

  const EMPTY := Slot(None, None)

  predicate Usable(e: Event, a: AgentId) {
    e.agent == Some(a) && e.kind == Message && e.source != Fault && !IsBlank(e.text)
  }

  function Entry(e: Event, id: nat, a: AgentId): Answer { Answer(a, e.text, id, e.time) }

  function Chosen(s: Slot): Option<Answer> { if s.final.Some? then s.final else s.last }

  function Cut(x: Answer): Answer { x.(text := Utf8.Truncate(x.text, MAX_FULL_TOOL_BYTES)) }

  function CutOption(x: Option<Answer>): Option<Answer> { if x.Some? then Some(Cut(x.value)) else None }

  function CutSlot(s: Slot): Slot { Slot(CutOption(s.last), CutOption(s.final)) }

  function CutAll(l: seq<Answer>): seq<Answer> { if l == [] then [] else [Cut(l[0])] + CutAll(l[1..]) }

  // ----- the live scan

  function Scan(t: seq<Event>, from: nat, to: nat, a: AgentId): Slot
    requires to <= |t|
  {
    if to <= from then EMPTY
    else
      var before := Scan(t, from, to - 1, a);
      var e := t[to - 1];
      if !Usable(e, a) then before
      else
        var entry := Some(Entry(e, to - 1, a));
        Slot(entry, if e.final then entry else before.final)
  }

  function TurnAnswer(t: seq<Event>, from: nat, a: AgentId): Option<Answer> {
    Chosen(Scan(t, from, |t|, a))
  }

  method FindTurnAnswer(transcript: seq<Event>, spanStart: nat, agent: AgentId)
    returns (answer: Option<Answer>)
    ensures answer == TurnAnswer(transcript, spanStart, agent)
  {
    var answerIndex: Option<nat> := None;
    var finalIndex: Option<nat> := None;
    var index := spanStart;
    while index < |transcript|
      invariant spanStart <= index && (index <= |transcript| || index == spanStart)
      invariant answerIndex.Some? ==> spanStart <= answerIndex.value < index
      invariant finalIndex.Some? ==> spanStart <= finalIndex.value < index
      invariant index <= |transcript| ==>
                  Scan(transcript, spanStart, index, agent) ==
                  Slot(if answerIndex.Some? then Some(Entry(transcript[answerIndex.value], answerIndex.value, agent)) else None,
                       if finalIndex.Some? then Some(Entry(transcript[finalIndex.value], finalIndex.value, agent)) else None)
    {
      var event := transcript[index];
      if Usable(event, agent) {
        answerIndex := Some(index);
        if event.final {
          finalIndex := Some(index);
        }
      }
      index := index + 1;
    }
    var chosen := if finalIndex.Some? then finalIndex else answerIndex;
    if chosen.None? {
      return None;
    }
    answer := Some(Entry(transcript[chosen.value], chosen.value, agent));
  }

  /** The scan without its loop: the last final message of the span, else its last message. */
  lemma {:induction false} ScanMeaning(t: seq<Event>, from: nat, to: nat, a: AgentId)
    requires to <= |t|
    ensures var s := Scan(t, from, to, a);
            && (s.last.None? <==> forall i :: from <= i < to ==> !Usable(t[i], a))
            && (s.final.None? <==> forall i :: from <= i < to ==> !(Usable(t[i], a) && t[i].final))
            && (s.last.Some? ==>
                  var i := s.last.value.eventId;
                  && from <= i < to && Usable(t[i], a) && s.last.value == Entry(t[i], i, a)
                  && forall j :: i < j < to ==> !Usable(t[j], a))
            && (s.final.Some? ==>
                  var i := s.final.value.eventId;
                  && from <= i < to && Usable(t[i], a) && t[i].final && s.final.value == Entry(t[i], i, a)
                  && forall j :: i < j < to ==> !(Usable(t[j], a) && t[j].final))
  {
    if from < to {
      ScanMeaning(t, from, to - 1, a);
    }
  }

  // ----- the restored fold

  /** A Python dict keyed by agent: replacing keeps the key's place, a new key goes last. */
  function Upsert(l: seq<Answer>, x: Answer): seq<Answer> {
    if l == [] then [x]
    else if l[0].agent == x.agent then [x] + l[1..]
    else [l[0]] + Upsert(l[1..], x)
  }

  function Lookup(l: seq<Answer>, a: AgentId): Option<Answer> {
    if l == [] then None else if l[0].agent == a then Some(l[0]) else Lookup(l[1..], a)
  }

  datatype Fold = Fold(pending: map<AgentId, Slot>, ledger: seq<Answer>)

  function PendingOf(f: Fold, a: AgentId): Slot { if a in f.pending then f.pending[a] else EMPTY }

  function FoldStep(f: Fold, id: nat, e: Event): Fold {
    if e.boundary.Some? then
      var a := e.boundary.value.agent;
      if a == "" then f
      else
        var chosen := Chosen(PendingOf(f, a));
        Fold(f.pending - {a},
             if e.boundary.value.outcome.kind.Completed? && chosen.Some?
             then Upsert(f.ledger, chosen.value) else f.ledger)
    else if e.agent.Some? && e.agent.value != "" && Usable(e, e.agent.value) then
      var a := e.agent.value;
      var entry := Some(Cut(Entry(e, id, a)));
      f.(pending := f.pending[a := Slot(entry, if e.final then entry else PendingOf(f, a).final)])
    else f
  }

  function Derive(events: seq<Event>): Fold {
    if events == [] then Fold(map[], [])
    else FoldStep(Derive(events[..|events| - 1]), |events| - 1, events[|events| - 1])
  }

  function DerivedAnswers(events: seq<Event>): seq<Answer> { Derive(events).ledger }

  method DeriveRestoredAnswers(events: seq<Event>) returns (answers: seq<Answer>)
    ensures answers == DerivedAnswers(events)
  {
    var ledger: seq<Answer> := [];
    var pending: map<AgentId, Slot> := map[];
    for eventId := 0 to |events|
      invariant Fold(pending, ledger) == Derive(events[..eventId])
    {
      assert events[..eventId + 1][..eventId] == events[..eventId];
      var event := events[eventId];
      if event.boundary.Some? {
        var record := event.boundary.value;
        if record.agent != "" {
          var slot := if record.agent in pending then pending[record.agent] else EMPTY;
          pending := pending - {record.agent};
          if record.outcome.kind.Completed? {
            var chosen := if slot.final.Some? then slot.final else slot.last;
            if chosen.Some? {
              ledger := Upsert(ledger, chosen.value);
            }
          }
        }
      } else if event.agent.Some? && event.agent.value != "" && Usable(event, event.agent.value) {
        var entry := Cut(Entry(event, eventId, event.agent.value));
        var slot := if event.agent.value in pending then pending[event.agent.value] else EMPTY;
        pending := pending[event.agent.value := Slot(Some(entry), if event.final then Some(entry) else slot.final)];
      }
    }
    assert events[..|events|] == events;
    answers := ledger;
  }

  // ----- an independent reading of the fold

  predicate BoundaryOf(e: Event, a: AgentId) { e.boundary.Some? && e.boundary.value.agent == a }

  /** Where the span ending before position n began: just after the agent's previous boundary. */
  function SpanStart(t: seq<Event>, n: nat, a: AgentId): (k: nat)
    requires n <= |t|
    ensures k <= n
    ensures k > 0 ==> BoundaryOf(t[k - 1], a)
    ensures forall i :: k <= i < n ==> !BoundaryOf(t[i], a)
  {
    if n == 0 then 0 else if BoundaryOf(t[n - 1], a) then n else SpanStart(t, n - 1, a)
  }

  /** Position b closes a completed turn of the agent, and this is what that turn answered. */
  function AnswerClosedAt(t: seq<Event>, b: nat, a: AgentId): Option<Answer>
    requires b < |t|
  {
    if BoundaryOf(t[b], a) && t[b].boundary.value.outcome.kind.Completed?
    then CutOption(Chosen(Scan(t, SpanStart(t, b, a), b, a))) else None
  }

  lemma {:induction false} ScanPrefix(t: seq<Event>, n: nat, from: nat, to: nat, a: AgentId)
    requires to <= n <= |t|
    ensures Scan(t[..n], from, to, a) == Scan(t, from, to, a)
  {
    if from < to {
      ScanPrefix(t, n, from, to - 1, a);
    }
  }

  lemma {:induction false} SpanStartPrefix(t: seq<Event>, n: nat, m: nat, a: AgentId)
    requires m <= n <= |t|
    ensures SpanStart(t[..n], m, a) == SpanStart(t, m, a)
  {
    if m > 0 && !BoundaryOf(t[m - 1], a) {
      SpanStartPrefix(t, n, m - 1, a);
    }
  }

  predicate PlainEvents(t: seq<Event>) {
    forall i :: 0 <= i < |t| && t[i].boundary.Some? ==> t[i].kind != Message
  }

  lemma {:induction false} LookupUpsert(l: seq<Answer>, x: Answer, a: AgentId)
    ensures Lookup(Upsert(l, x), a) == if x.agent == a then Some(x) else Lookup(l, a)
  {
    if l != [] && l[0].agent != x.agent {
      LookupUpsert(l[1..], x, a);
    }
  }

  predicate Keyed(f: Fold) {
    forall a :: a in f.pending ==>
      && (f.pending[a].last.Some? ==> f.pending[a].last.value.agent == a)
      && (f.pending[a].final.Some? ==> f.pending[a].final.value.agent == a)
  }

  lemma PendingStep(f: Fold, id: nat, e: Event, a: AgentId)
    requires a != "" && (e.boundary.Some? ==> e.kind != Message)
    ensures PendingOf(FoldStep(f, id, e), a) ==
            if BoundaryOf(e, a) then EMPTY
            else if Usable(e, a) then
              var entry := Some(Cut(Entry(e, id, a)));
              Slot(entry, if e.final then entry else PendingOf(f, a).final)
            else PendingOf(f, a)
    ensures Keyed(f) ==> Keyed(FoldStep(f, id, e))
  {}

  lemma LedgerStep(f: Fold, id: nat, e: Event, a: AgentId)
    requires a != "" && Keyed(f)
    ensures Lookup(FoldStep(f, id, e).ledger, a) ==
            if BoundaryOf(e, a) && e.boundary.value.outcome.kind.Completed? && Chosen(PendingOf(f, a)).Some?
            then Chosen(PendingOf(f, a)) else Lookup(f.ledger, a)
  {
    if e.boundary.Some? {
      var chosen := Chosen(PendingOf(f, e.boundary.value.agent));
      if chosen.Some? {
        LookupUpsert(f.ledger, chosen.value, a);
      }
    }
  }

  lemma {:induction false} DeriveKeyed(t: seq<Event>)
    requires PlainEvents(t)
    ensures Keyed(Derive(t))
  {
    if t != [] {
      DeriveKeyed(t[..|t| - 1]);
      PendingStep(Derive(t[..|t| - 1]), |t| - 1, t[|t| - 1], "a");
    }
  }

  /** The pending slot of the fold is the scan of the agent's open span. */
  lemma {:induction false} PendingIsOpenSpan(t: seq<Event>, a: AgentId)
    requires a != "" && PlainEvents(t)
    ensures PendingOf(Derive(t), a) == CutSlot(Scan(t, SpanStart(t, |t|, a), |t|, a))
  {
    if t != [] {
      var n := |t| - 1;
      var front := t[..n];
      PendingIsOpenSpan(front, a);
      ScanPrefix(t, n, SpanStart(t, n, a), n, a);
      SpanStartPrefix(t, n, n, a);
      PendingStep(Derive(front), n, t[n], a);
    }
  }

  lemma ClosedBefore(t: seq<Event>, n: nat, b: nat, a: AgentId)
    requires b < n <= |t|
    ensures AnswerClosedAt(t[..n], b, a) == AnswerClosedAt(t, b, a)
  {
    SpanStartPrefix(t, n, b, a);
    ScanPrefix(t, n, SpanStart(t, b, a), b, a);
  }

  lemma OneMoreDerived(t: seq<Event>, a: AgentId)
    requires t != [] && a != "" && PlainEvents(t)
    ensures var n := |t| - 1;
            Lookup(DerivedAnswers(t), a) ==
            if AnswerClosedAt(t, n, a).Some? then AnswerClosedAt(t, n, a) else Lookup(DerivedAnswers(t[..n]), a)
  {
    var n := |t| - 1;
    var front := t[..n];
    PendingIsOpenSpan(front, a);
    SpanStartPrefix(t, n, n, a);
    ScanPrefix(t, n, SpanStart(t, n, a), n, a);
    DeriveKeyed(front);
    LedgerStep(Derive(front), n, t[n], a);
  }

  /**
   * What a derived ledger says of each agent, independently of the fold: the answer of the
   * latest completed turn that had one, and nothing if there was no such turn.
   */
  lemma {:induction false} DerivedIsLatestCompleted(t: seq<Event>, a: AgentId)
    requires a != "" && PlainEvents(t)
    ensures (forall b :: 0 <= b < |t| ==> AnswerClosedAt(t, b, a).None?) ==> Lookup(DerivedAnswers(t), a).None?
    ensures forall b :: 0 <= b < |t| && AnswerClosedAt(t, b, a).Some?
                        && (forall c :: b < c < |t| ==> AnswerClosedAt(t, c, a).None?)
                        ==> Lookup(DerivedAnswers(t), a) == AnswerClosedAt(t, b, a)
  {
    if t != [] {
      hide AnswerClosedAt, DerivedAnswers, Lookup;
      var n := |t| - 1;
      var front := t[..n];
      DerivedIsLatestCompleted(front, a);
      OneMoreDerived(t, a);
      forall b | 0 <= b < n ensures AnswerClosedAt(front, b, a) == AnswerClosedAt(t, b, a) {
        ClosedBefore(t, n, b, a);
      }
    }
  }
}
