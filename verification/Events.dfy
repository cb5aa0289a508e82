/** Session events (agent_collab/events.py) and session statuses (agent_collab/retention.py). */
module Events {
  import opened Common
  import opened Outcomes

  type AgentId = string

  datatype Source = Human | RefereeNote | Provider(name: string) | Tool | Fault
  datatype EventKind = Message | ToolCall | Command | FileChange | StatusNote | ErrorNote

  /**
   * `final` is the backend's mark in the raw payload, `boundary` the outcome record that a
   * turn boundary carries there, and `providerSession` the trusted marker of a
   * provider-session bookkeeping event.
   */
  datatype Event = Event(
    time: string, source: Source, kind: EventKind, text: string, agent: Option<AgentId>,
    final: bool, providerSession: bool, boundary: Option<TurnRecord>)

  datatype Status = Running | AwaitingInput | Done | Failed | Stopped | Interrupted

  predicate Terminal(s: Status) { s.Done? || s.Failed? || s.Stopped? || s.Interrupted? }

  predicate Live(s: Status) { s.Running? || s.AwaitingInput? }

  /** The characters that Python's str.strip removes. */
  predicate IsSpace(c: char) {
    var n := c as int;
    || 0x09 <= n <= 0x0d || 0x1c <= n <= 0x20 || n == 0x85 || n == 0xa0 || n == 0x1680
    || 0x2000 <= n <= 0x200a || n == 0x2028 || n == 0x2029 || n == 0x202f || n == 0x205f || n == 0x3000
  }

  /** Python's str.strip. */
  function Stripped(s: string): (r: string)
    ensures |r| <= |s|
    ensures r != [] ==> !IsSpace(r[0]) && !IsSpace(r[|r| - 1])
    decreases |s|
  {
    if s == [] then s
    else if IsSpace(s[0]) then Stripped(s[1..])
    else if IsSpace(s[|s| - 1]) then Stripped(s[..|s| - 1])
    else s
  }

  lemma {:induction false} StrippedKeeps(s: string)
    requires s != [] ==> !IsSpace(s[0]) && !IsSpace(s[|s| - 1])
    ensures Stripped(s) == s
  {
  }

  predicate IsBlank(s: string) { forall c :: c in s ==> IsSpace(c) }

  /** A status note of the referee, with no message content of its own. */
  function Note(time: string, text: string, agent: Option<AgentId>): Event {
    Event(time, RefereeNote, StatusNote, text, agent, false, false, None)
  }

  function Boundary(time: string, text: string, record: TurnRecord): Event {
    Event(time, RefereeNote, StatusNote, text, Some(record.agent), false, false, Some(record))
  }
}
