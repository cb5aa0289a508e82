/**
 * The systemd unit printer and parser (agent_collab/daemon_autostart_systemd.py) and the
 * parser of the managed command line (agent_collab/daemon_service.py).
 */
module UnitCodec {
  import opened Common
  import opened Decimals
  import opened Events
  import opened ShellWords
  import opened TextLines

  const UNIT_MARKER := "# Managed by agent-collab. Do not edit."
  const INTERPRETER_MARKER := "# Agent-Collab-Interpreter: "
  const HOME_MARKER := "# Agent-Collab-Home: "
  const EXEC := "ExecStart="
  const ENVIRONMENT := "Environment="
  const HOME_KEY := "AGENT_COLLAB_HOME"
  const SYSTEMD := "systemd"
  const LAUNCHD := "launchd"

  /** What a unit is rendered from: resolved paths, the endpoint and the search path. */
  datatype UnitSpec = UnitSpec(
    interpreter: string, host: string, port: nat, workdir: Option<string>, home: string, path: string)

  datatype ManagedCommand = ManagedCommand(interpreter: string, manager: string, host: string, port: nat, workdir: Option<string>)

  /** Without home metadata the account's default home is meant. */
  datatype UnitIdentity = UnitIdentity(command: ManagedCommand, home: Option<string>)

  datatype Problem =
    | NotManaged | MissingExec | DuplicateExec | ExecQuoting | EnvironmentQuoting
    | Incomplete | NotForeground | UnknownArgument | RepeatedArgument | MissingValue
    | WrongManager | MissingEndpoint | InvalidPort
    | MalformedHome | DuplicateHome | IncompleteHome | ConflictingHome

  datatype Parsed<+T> = Good(value: T) | Bad(problem: Problem)

  // ----- printing

  function Argv(x: UnitSpec): seq<string> {
    [x.interpreter, "-m", "agent_collab.cli", "daemon", "run", "--manager", SYSTEMD, "--host", x.host, "--port", Show(x.port)]
    + (if x.workdir.Some? then ["--workdir", x.workdir.value] else [])
  }

  const DESCRIPTION := "Description=" + "agent-collab local collaboration daemon"

  const UNIT_SECTION := [
    "[Unit]", DESCRIPTION, "StartLimitIntervalSec=30", "StartLimitBurst=3", "",
    "[Service]", "Type=simple"]

  const CLOSING_SECTIONS := [
    "Restart=on-failure", "RestartSec=5", "TimeoutStopSec=10", "", "[Install]", "WantedBy=default.target"]

  function Markers(x: UnitSpec): seq<string> { [UNIT_MARKER, INTERPRETER_MARKER + x.interpreter, HOME_MARKER + x.home] }

  function Settings(x: UnitSpec): seq<string> {
    [EXEC + QuotedWords(Argv(x), true),
     ENVIRONMENT + Quoted("PATH=" + x.path, false),
     ENVIRONMENT + Quoted(HOME_KEY + "=" + x.home, false)]
  }

  function Lines(x: UnitSpec): seq<string> { Markers(x) + UNIT_SECTION + Settings(x) + CLOSING_SECTIONS }

  /** Every value that the unit quotes. */
  predicate AllValues(x: UnitSpec, p: string -> bool) {
    p(x.interpreter) && p(x.host) && (x.workdir.Some? ==> p(x.workdir.value)) && p(x.path) && p(x.home)
  }

  /** Refused for values with a line feed, a carriage return or a NUL. */
  function RenderSystemdUnit(x: UnitSpec): Option<string> {
    if AllValues(x, Quotable) then Some(Join(Lines(x) + [""])) else None
  }

  // ----- the command line

  datatype Flag = Manager | Host | Port | Workdir

  function FlagOf(arg: string): Option<Flag> {
    if arg == "--manager" then Some(Manager)
    else if arg == "--host" then Some(Host)
    else if arg == "--port" then Some(Port)
    else if arg == "--workdir" then Some(Workdir)
    else None
  }

  /** Flag and value pairs from a position on, added to those already read. */
  function Flags(argv: seq<string>, i: nat, values: map<Flag, string>): Parsed<map<Flag, string>>
    decreases |argv| - i
  {
    if i >= |argv| then Good(values)
    else
      var flag := FlagOf(argv[i]);
      if flag.None? then Bad(UnknownArgument)
      else if flag.value in values then Bad(RepeatedArgument)
      else if i + 1 >= |argv| then Bad(MissingValue)
      else Flags(argv, i + 2, values[flag.value := argv[i + 1]])
  }

  /** Digits without the single underscores that Python allows between them; None if one stands elsewhere. */
  function Ungrouped(s: string): Option<string>
    decreases |s|
  {
    if s == [] then Some([])
    else if s[0] != '_' then
      var rest := if |s| >= 3 && s[1] == '_' && s[2] != '_' then Ungrouped(s[2..]) else Ungrouped(s[1..]);
      if rest.None? then None else Some([s[0]] + rest.value)
    else None
  }

  /** Python's int() on a text, where it gives a port. */
  function ReadPort(raw: string): Option<nat> {
    var s := Stripped(raw);
    var digits := Ungrouped(if s != [] && s[0] == '+' then s[1..] else s);
    if digits.None? then None
    else
      var n := Read(digits.value);
      if 1 <= n <= 65535 then Some(n) else None
  }

  function CommandOf(argv: seq<string>, platform: string, allowLegacy: bool): Parsed<ManagedCommand> {
    if |argv| < 5 then Bad(Incomplete)
    else if argv[1..5] != ["-m", "agent_collab.cli", "daemon", "run"] then Bad(NotForeground)
    else
      var flags := Flags(argv, 5, map[]);
      if flags.Bad? then Bad(flags.problem)
      else FromFlags(argv[0], flags.value, platform, allowLegacy)
  }

  function FromFlags(interpreter: string, v: map<Flag, string>, platform: string, allowLegacy: bool): Parsed<ManagedCommand> {
    var manager := if Manager in v then Some(v[Manager])
                   else if platform == SYSTEMD && allowLegacy then Some(SYSTEMD) else None;
    if manager != Some(platform) || (platform != SYSTEMD && platform != LAUNCHD) then Bad(WrongManager)
    else if Host !in v || v[Host] == "" || Port !in v then Bad(MissingEndpoint)
    else
      var port := ReadPort(v[Port]);
      if port.None? then Bad(InvalidPort)
      else Good(ManagedCommand(interpreter, platform, v[Host], port.value,
                               if Workdir in v && v[Workdir] != "" then Some(v[Workdir]) else None))
  }

  method ParseManagedCommand(argv: seq<string>, platform: string, allowLegacy: bool) returns (r: Parsed<ManagedCommand>)
    ensures r == CommandOf(argv, platform, allowLegacy)
  {
    if |argv| < 5 {
      return Bad(Incomplete);
    }
    if argv[1..5] != ["-m", "agent_collab.cli", "daemon", "run"] {
      return Bad(NotForeground);
    }
    var values: map<Flag, string> := map[];
    var index := 5;
    while index < |argv|
      invariant 5 <= index
      invariant Flags(argv, 5, map[]) == Flags(argv, index, values)
    {
      var flag := FlagOf(argv[index]);
      if flag.None? {
        return Bad(UnknownArgument);
      }
      if flag.value in values {
        return Bad(RepeatedArgument);
      }
      if index + 1 >= |argv| {
        return Bad(MissingValue);
      }
      values := values[flag.value := argv[index + 1]];
      index := index + 2;
    }
    r := FromFlags(argv[0], values, platform, allowLegacy);
  }

  // ----- parsing the unit

  /** What follows a prefix, in every line that has it. */
  function Directives(lines: seq<string>, prefix: string): seq<string> {
    if lines == [] then []
    else
      var last := lines[|lines| - 1];
      Directives(lines[..|lines| - 1], prefix) + (if prefix <= last then [last[|prefix|..]] else [])
  }

  function KeyLength(entry: string): (n: nat)
    ensures n <= |entry| && '=' !in entry[..n] && (n < |entry| ==> entry[n] == '=')
  {
    if entry == [] || entry[0] == '=' then 0 else 1 + KeyLength(entry[1..])
  }

  /** The homes that environment entries name. */
  function HomesOfEntries(entries: seq<string>): Parsed<seq<string>> {
    if entries == [] then Good([])
    else
      var before := HomesOfEntries(entries[..|entries| - 1]);
      var entry := entries[|entries| - 1];
      var n := KeyLength(entry);
      if before.Bad? || entry[..n] != HOME_KEY then before
      else if n + 1 >= |entry| then Bad(MalformedHome)
      else Good(before.value + [Undoubled(entry[n + 1..], '%')])
  }

  /** The homes that Environment directives name. */
  function Homes(directives: seq<string>): Parsed<seq<string>> {
    if directives == [] then Good([])
    else
      var before := Homes(directives[..|directives| - 1]);
      if before.Bad? then before
      else
        var entries := Split(directives[|directives| - 1]);
        if entries.None? then Bad(EnvironmentQuoting)
        else
          var homes := HomesOfEntries(entries.value);
          if homes.Bad? then homes else Good(before.value + homes.value)
  }

  function Arguments(words: seq<string>): (r: seq<string>)
    ensures |r| == |words| && forall i :: 0 <= i < |r| ==> r[i] == Undoubled(Undoubled(words[i], '%'), '$')
  {
    seq(|words|, i requires 0 <= i < |words| => Undoubled(Undoubled(words[i], '%'), '$'))
  }

  function CommandIn(lines: seq<string>): Parsed<ManagedCommand> {
    var execs := Directives(lines, EXEC);
    if execs == [] then Bad(MissingExec)
    else if |execs| != 1 then Bad(DuplicateExec)
    else
      var words := Split(execs[0]);
      if words.None? then Bad(ExecQuoting) else CommandOf(Arguments(words.value), SYSTEMD, true)
  }

  /** The one home that the marker and the environment agree on, if any is named. */
  function EffectiveHome(marked: seq<string>, named: seq<string>): Parsed<Option<string>> {
    if "" in marked then Bad(MalformedHome)
    else if |marked| > 1 || |named| > 1 then Bad(DuplicateHome)
    else if marked != [] && named == [] then Bad(IncompleteHome)
    else if marked != [] && marked != named then Bad(ConflictingHome)
    else Good(if named != [] then Some(named[0]) else None)
  }

  function ParseLines(lines: seq<string>): Parsed<UnitIdentity> {
    var command := CommandIn(lines);
    if command.Bad? then Bad(command.problem)
    else
      var named := Homes(Directives(lines, ENVIRONMENT));
      if named.Bad? then Bad(named.problem)
      else
        var home := EffectiveHome(Directives(lines, HOME_MARKER), named.value);
        if home.Bad? then Bad(home.problem) else Good(UnitIdentity(command.value, home.value))
  }

  function ParseUnit(content: string): Parsed<UnitIdentity> {
    if !(UNIT_MARKER <= content) then Bad(NotManaged) else ParseLines(SplitLines(content))
  }

  method ParseSystemdUnit(content: string) returns (r: Parsed<UnitIdentity>)
    ensures r == ParseUnit(content)
  {
    if !(UNIT_MARKER <= content) {
      return Bad(NotManaged);
    }
    var lines := SplitLines(content);
    var execs := Directives(lines, EXEC);
    if execs == [] {
      return Bad(MissingExec);
    }
    if |execs| != 1 {
      return Bad(DuplicateExec);
    }
    var words := Split(execs[0]);
    if words.None? {
      return Bad(ExecQuoting);
    }
    var command := ParseManagedCommand(Arguments(words.value), SYSTEMD, true);
    if command.Bad? {
      return Bad(command.problem);
    }
    var named := EnvironmentHomes(lines);
    if named.Bad? {
      return Bad(named.problem);
    }
    var home := EffectiveHome(Directives(lines, HOME_MARKER), named.value);
    r := if home.Bad? then Bad(home.problem) else Good(UnitIdentity(command.value, home.value));
  }

  lemma {:induction false} BadHomesStay(directives: seq<string>, n: nat)
    requires n <= |directives| && Homes(directives[..n]).Bad?
    ensures Homes(directives) == Homes(directives[..n])
    decreases |directives|
  {
    if n < |directives| {
      var front := directives[..|directives| - 1];
      assert front[..n] == directives[..n];
      BadHomesStay(front, n);
    } else {
      assert directives[..n] == directives;
    }
  }

  lemma {:induction false} DirectivesJoin(a: seq<string>, b: seq<string>, prefix: string)
    ensures Directives(a + b, prefix) == Directives(a, prefix) + Directives(b, prefix)
    decreases |b|
  {
    if b == [] {
      assert a + b == a;
    } else {
      var n := |b| - 1;
      DirectivesJoin(a, b[..n], prefix);
      assert (a + b)[..|a + b| - 1] == a + b[..n];
    }
  }

  method EnvironmentHomes(lines: seq<string>) returns (r: Parsed<seq<string>>)
    ensures r == Homes(Directives(lines, ENVIRONMENT))
  {
    var homes: seq<string> := [];
    for i := 0 to |lines|
      invariant Homes(Directives(lines[..i], ENVIRONMENT)) == Good(homes)
    {
      assert lines[..i + 1][..i] == lines[..i];
      ghost var done := Directives(lines[..i], ENVIRONMENT);
      ghost var upTo := Directives(lines[..i + 1], ENVIRONMENT);
      assert lines == lines[..i + 1] + lines[i + 1..];
      DirectivesJoin(lines[..i + 1], lines[i + 1..], ENVIRONMENT);
      assert Directives(lines, ENVIRONMENT)[..|upTo|] == upTo;
      if !(ENVIRONMENT <= lines[i]) {
        assert upTo == done;
        continue;
      }
      assert upTo[..|upTo| - 1] == done && upTo[|upTo| - 1] == lines[i][|ENVIRONMENT|..];
      var entries := Split(lines[i][|ENVIRONMENT|..]);
      if entries.None? {
        BadHomesStay(Directives(lines, ENVIRONMENT), |upTo|);
        return Bad(EnvironmentQuoting);
      }
      var found := HomesOfEntries(entries.value);
      if found.Bad? {
        BadHomesStay(Directives(lines, ENVIRONMENT), |upTo|);
        return found;
      }
      homes := homes + found.value;
      assert Homes(upTo) == Good(homes);
    }
    assert lines[..|lines|] == lines;
    r := Good(homes);
  }
}
