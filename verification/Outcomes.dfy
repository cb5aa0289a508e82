/**
 * Terminal outcomes of supervised turns (agent_collab/outcomes.py): the validating
 * constructors of the frozen records, and the accumulator that reduces provider evidence
 * to one outcome.
 */
module Outcomes {
  import opened Common
  import opened Decimals

  datatype Kind = Completed | Cancelled | Interrupted | TimedOut | Refused | Failed

  /** The keys of the canonical message table. Those of the outer sandbox share one message; any other text is unlisted. */
  datatype Code =
    | ProviderTurnCancelled | ProviderTurnRefused | ProviderTerminalFailure | ProviderProtocolConflict
    | ProviderAuthenticationFailed | ProviderEntitlementFailed | ProviderModelUnavailable | ProviderTransportFailed
    | ProviderOutputInvalid | ProviderOutputIncomplete | ProviderEmptyResponse
    | LocalTurnTimedOut | LocalTurnInterrupted | RefereeCancelledUnexpected
    | SubprocessExitNonzero | ParallelStageNoAcceptedMember
    | OuterSandbox(detail: string)
    | Unlisted(text: string)

  datatype Backend =
    | ClaudeCli | CodexCli | AntigravityCli | XaiCli | ClaudeSdk | CodexSdk | AntigravitySdk | XaiSdk | Mock
    | OtherBackend(name: string)

  /** A provider's stop reason, of the short list that is passed on or not. */
  datatype StopReason = Recognised(text: string) | Unrecognised(text: string)

  /** Why a validating constructor raises. */
  datatype Refusal = UnknownCode | CodeOnCompleted | MissingCode | BadTurnId | BadStage | BadAgent | BadBackend

  const MAX_RETRY_SECONDS := 604800.0

  predicate KnownCode(code: Code) { !code.Unlisted? }

  predicate KnownBackend(backend: Backend) { !backend.OtherBackend? }

  function SafeStopReason(value: Option<StopReason>): Option<StopReason> {
    if value.Some? && value.value.Recognised? then value else None
  }

  function SafeRetryAfter(value: Option<real>): Option<real> {
    if value.Some? && 0.0 < value.value <= MAX_RETRY_SECONDS then value else None
  }

  /** A message is determined by its code, so it is not carried separately. */
  datatype TurnOutcome = TurnOutcome(
    kind: Kind, code: Option<Code>, stopReason: Option<StopReason>,
    exitCode: Option<int>, retryAfter: Option<real>)

  /** A failure code is present exactly when the turn did not complete. */
  predicate Coded(o: TurnOutcome) { o.kind.Completed? <==> o.code.None? }

  predicate WellFormedOutcome(o: TurnOutcome) {
    && (o.code.Some? ==> KnownCode(o.code.value))
    && Coded(o)
    && SafeStopReason(o.stopReason) == o.stopReason
    && SafeRetryAfter(o.retryAfter) == o.retryAfter
  }

  function NewOutcome(kind: Kind, code: Option<Code>, stopReason: Option<StopReason>,
                      exitCode: Option<int>, retryAfter: Option<real>): (r: Result<TurnOutcome, Refusal>)
    ensures r.Ok? <==> (code.Some? ==> KnownCode(code.value)) && (kind.Completed? <==> code.None?)
    ensures r.Ok? ==> WellFormedOutcome(r.value) && r.value.kind == kind && r.value.code == code
  {
    if code.Some? && !KnownCode(code.value) then Err(UnknownCode)
    else if kind.Completed? && code.Some? then Err(CodeOnCompleted)
    else if !kind.Completed? && code.None? then Err(MissingCode)
    else Ok(TurnOutcome(kind, code, SafeStopReason(stopReason), exitCode, SafeRetryAfter(retryAfter)))
  }

  // ----- identifiers

  function TurnId(n: nat): string { "turn-" + Show(n) }

  lemma TurnIdInjective(m: nat, n: nat)
    requires TurnId(m) == TurnId(n)
    ensures m == n
  {
    assert TurnId(m)[5..] == Show(m) && TurnId(n)[5..] == Show(n);
    ReadShow(m);
    ReadShow(n);
  }

  predicate ValidTurnId(id: string) {
    "turn-" <= id && id[5..] != "" && forall c :: c in id[5..] ==> IsDigit(c)
  }

  predicate AlphaNumeric(c: char) { 'A' <= c <= 'Z' || 'a' <= c <= 'z' || '0' <= c <= '9' }

  predicate ValidIdentifier(id: string) {
    && 1 <= |id| <= 128
    && AlphaNumeric(id[0])
    && forall c :: c in id[1..] ==> AlphaNumeric(c) || c in "._-"
  }

  // ----- records

  datatype TurnRecord = TurnRecord(
    turnId: string, stageIndex: int, agent: string, backend: Backend, outcome: TurnOutcome)

  predicate WellFormedRecord(r: TurnRecord) {
    && ValidTurnId(r.turnId) && r.stageIndex >= 1 && ValidIdentifier(r.agent)
    && KnownBackend(r.backend) && WellFormedOutcome(r.outcome)
  }

  /** The record constructor: validates identity, then normalises its outcome once more. A well-formed outcome is kept as it is. */
  function NewRecord(turnId: string, stageIndex: int, agent: string, backend: Backend,
                     outcome: TurnOutcome): (r: Result<TurnRecord, Refusal>)
    ensures r.Ok? ==> WellFormedRecord(r.value)
    ensures WellFormedOutcome(outcome) ==>
              && (r.Ok? ==> r.value == TurnRecord(turnId, stageIndex, agent, backend, outcome))
              && (r.Ok? <==> ValidTurnId(turnId) && stageIndex >= 1 && ValidIdentifier(agent) && KnownBackend(backend))
  {
    if !ValidTurnId(turnId) then Err(BadTurnId)
    else if stageIndex < 1 then Err(BadStage)
    else if !ValidIdentifier(agent) then Err(BadAgent)
    else if !KnownBackend(backend) then Err(BadBackend)
    else
      var o :- NewOutcome(outcome.kind, outcome.code, outcome.stopReason, outcome.exitCode, outcome.retryAfter);
      Ok(TurnRecord(turnId, stageIndex, agent, backend, o))
  }

  datatype SessionFailure = SessionFailure(
    code: Code, stageIndex: Option<int>, turnId: Option<string>, agent: Option<string>,
    backend: Option<Backend>, kind: Option<Kind>, stopReason: Option<StopReason>,
    exitCode: Option<int>, retryAfter: Option<real>)

  function NewFailure(code: Code, stageIndex: Option<int>, turnId: Option<string>,
                      agent: Option<string>, backend: Option<Backend>, kind: Option<Kind>,
                      stopReason: Option<StopReason>, exitCode: Option<int>, retryAfter: Option<real>)
    : Result<SessionFailure, Refusal>
  {
    if !KnownCode(code) then Err(UnknownCode)
    else if stageIndex.Some? && stageIndex.value < 1 then Err(BadStage)
    else if turnId.Some? && !ValidTurnId(turnId.value) then Err(BadTurnId)
    else if agent.Some? && !ValidIdentifier(agent.value) then Err(BadAgent)
    else if backend.Some? && !KnownBackend(backend.value) then Err(BadBackend)
    else
      Ok(SessionFailure(code, stageIndex, turnId, agent, backend, kind,
                        SafeStopReason(stopReason), exitCode, SafeRetryAfter(retryAfter)))
  }

  function FromRecord(r: TurnRecord): Result<SessionFailure, Refusal> {
    if r.outcome.code.None? then Err(MissingCode)
    else
      NewFailure(r.outcome.code.value, Some(r.stageIndex), Some(r.turnId), Some(r.agent),
                 Some(r.backend), Some(r.outcome.kind), r.outcome.stopReason,
                 r.outcome.exitCode, r.outcome.retryAfter)
  }

  /** The fields a failure takes over from a record. */
  function Project(r: TurnRecord): SessionFailure
    requires r.outcome.code.Some?
  {
    SessionFailure(r.outcome.code.value, Some(r.stageIndex), Some(r.turnId), Some(r.agent), Some(r.backend),
                   Some(r.outcome.kind), r.outcome.stopReason, r.outcome.exitCode, r.outcome.retryAfter)
  }

  /** A session-level failure that names no turn. */
  function Bare(code: Code, stageIndex: Option<int>): SessionFailure {
    SessionFailure(code, stageIndex, None, None, None, None, None, None, None)
  }

  /** Turning a committed record into a failure succeeds exactly when the turn did not complete, and loses nothing. */
  lemma FailureOfRecord(r: TurnRecord)
    requires WellFormedRecord(r)
    ensures FromRecord(r).Ok? <==> !r.outcome.kind.Completed?
    ensures r.outcome.code.Some? ==> FromRecord(r) == Ok(Project(r))
  {
  }

  lemma AllocatedTurnId(n: nat)
    ensures ValidTurnId(TurnId(n))
  {
    assert TurnId(n)[5..] == Show(n);
    assert forall c :: c in DIGITS ==> IsDigit(c);
  }

  // ----- provider evidence

  datatype Evidence = Evidence(kind: Kind, code: Option<Code>, stopReason: Option<StopReason>, retryAfter: Option<real>)

  function ToOutcome(e: Evidence, exitCode: Option<int>): Result<TurnOutcome, Refusal> {
    NewOutcome(e.kind, e.code, e.stopReason, exitCode, e.retryAfter)
  }

  /** What the process and transport teardown said. */
  datatype Teardown = Teardown(exitCode: Option<int>, exceptionCode: Option<Code>, cleanEof: bool, producedMessage: bool)

  function Resolve(evidence: seq<Evidence>, t: Teardown): Result<TurnOutcome, Refusal> {
    if |evidence| > 1 then
      NewOutcome(Failed, Some(ProviderProtocolConflict), None, t.exitCode, None)
    else if evidence != [] && !evidence[0].kind.Completed? then ToOutcome(evidence[0], t.exitCode)
    else if t.exceptionCode.Some? then NewOutcome(Failed, t.exceptionCode, None, t.exitCode, None)
    else if t.exitCode.Some? && t.exitCode.value != 0 then
      NewOutcome(Failed, Some(SubprocessExitNonzero), None, t.exitCode, None)
    else if evidence != [] then ToOutcome(evidence[0], t.exitCode)
    else if t.cleanEof then
      if t.producedMessage then NewOutcome(Completed, None, None, t.exitCode, None)
      else NewOutcome(Failed, Some(ProviderEmptyResponse), None, t.exitCode, None)
    else NewOutcome(Failed, Some(ProviderOutputIncomplete), None, t.exitCode, None)
  }

  function Deduplicate(items: seq<Evidence>): (d: seq<Evidence>)
    ensures forall i, j :: 0 <= i < j < |d| ==> d[i] != d[j]
    ensures forall e :: e in d <==> e in items
  {
    if items == [] then []
    else
      var front := Deduplicate(items[..|items| - 1]);
      if items[|items| - 1] in front then front else front + [items[|items| - 1]]
  }

  predicate WellFormedEvidence(e: Evidence) {
    && (e.code.Some? ==> KnownCode(e.code.value))
    && (e.kind.Completed? <==> e.code.None?)
  }

  class TerminalEvidenceAccumulator {
    var evidence: seq<Evidence>

    constructor ()
      ensures evidence == []
    {
      evidence := [];
    }

    method Add(e: Evidence)
      modifies this
      ensures evidence == if e in old(evidence) then old(evidence) else old(evidence) + [e]
    {
      if e !in evidence {
        evidence := evidence + [e];
      }
    }

    method Extend(items: seq<Evidence>)
      requires evidence == Deduplicate(evidence)
      modifies this
      ensures evidence == Deduplicate(old(evidence) + items)
    {
      ghost var before := evidence;
      assert before + items[..0] == before;
      for i := 0 to |items|
        invariant evidence == Deduplicate(before + items[..i])
      {
        var step := before + items[..i + 1];
        assert step[..|step| - 1] == before + items[..i];
        Add(items[i]);
      }
      assert items[..|items|] == items;
    }

    /** What the evidence collected so far resolves to, as `CompletedExactlyWhen` says of it. */
    method ResolveNow(t: Teardown) returns (r: Result<TurnOutcome, Refusal>)
      requires evidence == Deduplicate(evidence) && forall e :: e in evidence ==> WellFormedEvidence(e)
      requires t.exceptionCode.Some? ==> KnownCode(t.exceptionCode.value)
      ensures r == Resolve(evidence, t) && r.Ok?
      ensures r.value.kind.Completed? <==>
                && t.exceptionCode.None? && (t.exitCode.Some? ==> t.exitCode.value == 0)
                && (if evidence == [] then t.cleanEof && t.producedMessage else |evidence| == 1 && evidence[0].kind.Completed?)
    {
      ResolveDistinct(evidence, t);
      r := Resolve(evidence, t);
    }
  }

  /**
   * A turn counts as completed on exactly two grounds: one uncontradicted completed
   * terminal state, or, with no terminal state at all, a clean end of stream that carried a
   * message. Either way no exception and no nonzero exit may have been seen.
   */
  lemma CompletedExactlyWhen(items: seq<Evidence>, t: Teardown)
    requires forall e :: e in items ==> WellFormedEvidence(e)
    requires t.exceptionCode.Some? ==> KnownCode(t.exceptionCode.value)
    ensures Resolve(Deduplicate(items), t).Ok?
    ensures Resolve(Deduplicate(items), t).value.kind.Completed? <==>
              && t.exceptionCode.None? && (t.exitCode.Some? ==> t.exitCode.value == 0)
              && (if items == [] then t.cleanEof && t.producedMessage
                  else items[0].kind.Completed? && forall e :: e in items ==> e == items[0])
  {
    var d := Deduplicate(items);
    assert forall e :: e in d ==> WellFormedEvidence(e);
    DistinctEvidence(items);
    hide Deduplicate, WellFormedOutcome, SafeStopReason, SafeRetryAfter;
    ResolveDistinct(d, t);
  }

  /** What is left of the evidence is one item exactly if all items are alike. */
  lemma DistinctEvidence(items: seq<Evidence>)
    ensures var d := Deduplicate(items);
            && (d == [] <==> items == [])
            && (items != [] ==> (|d| == 1 && d[0].kind.Completed?
                                 <==> items[0].kind.Completed? && forall e :: e in items ==> e == items[0]))
  {
    var d := Deduplicate(items);
    if items != [] {
      assert items[0] in items && items[0] in d;
      if |d| > 1 {
        assert d[0] in items && d[1] in items && d[0] != d[1];
      } else {
        assert d == [items[0]];
        forall e | e in items ensures e == items[0] {
          assert e in d;
        }
      }
    }
  }

  lemma ResolveDistinct(d: seq<Evidence>, t: Teardown)
    requires forall e :: e in d ==> WellFormedEvidence(e)
    requires t.exceptionCode.Some? ==> KnownCode(t.exceptionCode.value)
    ensures Resolve(d, t).Ok?
    ensures Resolve(d, t).value.kind.Completed? <==>
              && t.exceptionCode.None? && (t.exitCode.Some? ==> t.exitCode.value == 0)
              && (if d == [] then t.cleanEof && t.producedMessage else |d| == 1 && d[0].kind.Completed?)
  {
    hide WellFormedOutcome, SafeStopReason, SafeRetryAfter;
    assert d != [] ==> d[0] in d;
  }

  predicate Distinct(s: seq<Evidence>) { forall i, j :: 0 <= i < j < |s| ==> s[i] != s[j] }

  lemma ManyElements(x: seq<Evidence>, y: seq<Evidence>)
    requires Distinct(x) && |x| > 1 && forall e :: e in x ==> e in y
    ensures |y| > 1
  {
    assert x[0] in y && x[1] in y && x[0] != x[1];
  }

  /** The order in which a backend reports its terminal states, and repeats, do not matter. */
  lemma ResolveIgnoresOrder(a: seq<Evidence>, b: seq<Evidence>, t: Teardown)
    requires forall e :: e in a <==> e in b
    ensures Resolve(Deduplicate(a), t) == Resolve(Deduplicate(b), t)
  {
    var x, y := Deduplicate(a), Deduplicate(b);
    if |x| > 1 {
      ManyElements(x, y);
    } else if |y| > 1 {
      ManyElements(y, x);
    } else {
      assert x != [] ==> x[0] in y;
      assert y != [] ==> y[0] in x;
    }
  }
}
