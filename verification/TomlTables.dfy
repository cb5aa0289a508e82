/**
 * How the TOML-subset parser fills its nested tables (agent_collab/config.py): headers,
 * dotted keys and inline tables, and the bookkeeping that keeps them apart.
 */
module TomlTables {
  import opened Common
  import opened Events

  type Path = seq<string>

  datatype Val = Bool(truth: bool) | Int(number: int) | Text(text: string) | List(items: seq<Val>) | Table(entries: map<string, Val>)

  /** A line of a document, read on its own: Broken raises a configuration error, Crash an error that nobody catches. */
  datatype Line = Empty | Header(parts: Path) | Assign(parts: Path, value: Val) | Broken | Crash

  /** The value at a path. */
  function Get(t: Val, path: Path): Option<Val>
    decreases |path|
  {
    if path == [] then Some(t)
    else if t.Table? && path[0] in t.entries then Get(t.entries[path[0]], path[1..])
    else None
  }

  function Child(t: Val, key: string): Val
    requires t.Table?
  {
    if key in t.entries then t.entries[key] else Table(map[])
  }

  /** Enter or create the tables of a header, one part after another. */
  function OpenTables(t: Val, path: Path): Option<Val>
    requires t.Table?
    decreases |path|
  {
    if path == [] then Some(t)
    else if !Child(t, path[0]).Table? then None
    else
      var inner := OpenTables(Child(t, path[0]), path[1..]);
      if inner.None? then None else Some(Table(t.entries[path[0] := inner.value]))
  }

  /** Set a dotted key that is not there yet, through tables entered or created on the way. */
  function SetDotted(t: Val, path: Path, v: Val): Option<Val>
    requires t.Table? && path != []
    decreases |path|
  {
    if |path| == 1 then (if path[0] in t.entries then None else Some(Table(t.entries[path[0] := v])))
    else if !Child(t, path[0]).Table? then None
    else
      var inner := SetDotted(Child(t, path[0]), path[1..], v);
      if inner.None? then None else Some(Table(t.entries[path[0] := inner.value]))
  }

  /**
   * The parser between two lines. `current` is the header's path as written; the tables
   * entered, `entered`, are named by its parts without outer blanks.
   */
  datatype State = State(
    root: Val, current: Path, entered: Path, declared: set<Path>, implicit: set<Path>, inlines: set<Path>)

  const START := State(Table(map[]), [], [], {}, {}, {})

  function Trimmed(path: Path): (r: Path)
    ensures |r| == |path| && forall i :: 0 <= i < |r| ==> r[i] == Stripped(path[i])
  {
    seq(|path|, i requires 0 <= i < |path| => Stripped(path[i]))
  }

  predicate UnderInline(inlines: set<Path>, path: Path) { exists p :: p in inlines && p <= path }

  /** The proper, non-empty beginnings of a dotted key, below the current table. */
  function DottedTables(current: Path, parts: Path): set<Path> {
    set k | 1 <= k < |parts| :: current + parts[..k]
  }

  function HeaderLine(s: State, parts: Path): Option<State>
    requires s.root.Table?
  {
    if parts in s.declared || parts in s.implicit || UnderInline(s.inlines, parts) || "" in Trimmed(parts) then None
    else
      var root := OpenTables(s.root, Trimmed(parts));
      if root.None? then None
      else Some(s.(root := root.value, current := parts, entered := Trimmed(parts), declared := s.declared + {parts}))
  }

  predicate DottedConflict(s: State, parts: Path) {
    exists d :: d in DottedTables(s.current, parts) && (d in s.declared || UnderInline(s.inlines, d))
  }

  function KeyLine(s: State, parts: Path, v: Val): Option<State>
    requires s.root.Table?
  {
    if parts == [] || DottedConflict(s, parts) then None
    else
      var root := SetDotted(s.root, s.entered + parts, v);
      if root.None? then None
      else Some(s.(root := root.value, implicit := s.implicit + DottedTables(s.current, parts),
                   inlines := if v.Table? then s.inlines + {s.current + parts} else s.inlines))
  }

  function AfterLine(s: State, l: Line): Option<State>
    requires s.root.Table?
  {
    match l
    case Empty => Some(s)
    case Header(parts) => HeaderLine(s, parts)
    case Assign(parts, v) => KeyLine(s, parts, v)
    case Broken => None
    case Crash => None
  }

  /** The state after a document's lines; None at the first error. */
  function Run(lines: seq<Line>): (r: Option<State>)
    ensures r.Some? ==> r.value.root.Table?
  {
    if lines == [] then Some(START)
    else
      var before := Run(lines[..|lines| - 1]);
      if before.None? then None else AfterLine(before.value, lines[|lines| - 1])
  }

  /** How a refused document ends. */
  datatype Raised = ConfigError | ValueError

  function FirstFault(lines: seq<Line>): Raised
    requires Run(lines).None?
  {
    var front := lines[..|lines| - 1];
    if Run(front).None? then FirstFault(front) else if lines[|lines| - 1].Crash? then ValueError else ConfigError
  }

  function Outcome(lines: seq<Line>): Result<Val, Raised> {
    if Run(lines).Some? then Ok(Run(lines).value.root) else Err(FirstFault(lines))
  }

  /** Nothing after the first refused line is looked at. */
  lemma {:induction false} RefusedStays(lines: seq<Line>, n: nat)
    requires n <= |lines| && Run(lines[..n]).None?
    ensures Run(lines).None? && FirstFault(lines) == FirstFault(lines[..n])
    decreases |lines|
  {
    if n < |lines| {
      assert lines[..|lines| - 1][..n] == lines[..n];
      RefusedStays(lines[..|lines| - 1], n);
    } else {
      assert lines[..n] == lines;
    }
  }

  /** An uncaught error ends the parse exactly when a crashing line comes right after an accepted beginning. */
  lemma {:induction false} UncaughtExactlyWhen(lines: seq<Line>)
    ensures Outcome(lines) == Err(ValueError) <==> exists k :: 0 <= k < |lines| && lines[k].Crash? && Run(lines[..k]).Some?
  {
    if k :| 0 <= k < |lines| && lines[k].Crash? && Run(lines[..k]).Some? {
      assert lines[..k + 1][..k] == lines[..k];
      RefusedStays(lines, k + 1);
    }
    if Run(lines).None? {
      FaultIsAt(lines);
    }
  }

  lemma {:induction false} FaultIsAt(lines: seq<Line>)
    requires Run(lines).None?
    ensures FirstFault(lines) == ValueError ==> exists k :: 0 <= k < |lines| && lines[k].Crash? && Run(lines[..k]).Some?
  {
    var front := lines[..|lines| - 1];
    if Run(front).None? {
      FaultIsAt(front);
      if FirstFault(lines) == ValueError {
        var k :| 0 <= k < |front| && front[k].Crash? && Run(front[..k]).Some?;
        assert front[..k] == lines[..k];
      }
    }
  }

  // ----- what a document assigns

  datatype Assignment = Assignment(path: Path, value: Val)

  /** The tables that are entered after these lines, by the names they are entered with. */
  function Entered(lines: seq<Line>): Path {
    if lines == [] then []
    else if lines[|lines| - 1].Header? then Trimmed(lines[|lines| - 1].parts)
    else Entered(lines[..|lines| - 1])
  }

  /** Each key line, with its path from the root and its own value. */
  function Assignments(lines: seq<Line>): seq<Assignment> {
    if lines == [] then []
    else
      var last := lines[|lines| - 1];
      var before := Assignments(lines[..|lines| - 1]);
      if last.Assign? then before + [Assignment(Entered(lines[..|lines| - 1]) + last.parts, last.value)] else before
  }

  /** A line reaches into what an earlier line gave: a key below its table, or a header that needs a table its value does not have. */
  predicate Reaches(g: Assignment, entered: Path, l: Line) {
    && g.value.Table?
    && match l
       case Assign(parts, _) => g.path <= entered + parts && g.path != entered + parts
       case Header(parts) => g.path <= Trimmed(parts) && Get(g.value, Trimmed(parts)[|g.path|..]).None?
       case _ => false
  }

  /** Some line of the document reaches into an inline table that an earlier line gave. */
  predicate Intrudes(lines: seq<Line>) {
    lines != [] &&
    var front := lines[..|lines| - 1];
    Intrudes(front) || exists g :: g in Assignments(front) && Reaches(g, Entered(front), lines[|lines| - 1])
  }

  /** No part of a header has blanks at its ends, which only a quoted part can have. */
  predicate HeadersTrimmed(lines: seq<Line>) {
    forall i :: 0 <= i < |lines| && lines[i].Header? ==> Trimmed(lines[i].parts) == lines[i].parts
  }

  // ----- one change of the tree

  lemma {:induction false} SetDottedFresh(t: Val, path: Path, v: Val)
    requires t.Table? && path != [] && SetDotted(t, path, v).Some?
    ensures SetDotted(t, path, v).value.Table? && Get(t, path).None?
    decreases |path|
  {
    if |path| > 1 {
      SetDottedFresh(Child(t, path[0]), path[1..], v);
    }
  }

  lemma {:induction false} SetDottedBelow(t: Val, path: Path, v: Val, q: Path)
    requires t.Table? && path != [] && SetDotted(t, path, v).Some? && path <= q
    ensures Get(SetDotted(t, path, v).value, q) == Get(v, q[|path|..])
    decreases |path|
  {
    PrefixTail(path, q);
    var u := SetDotted(t, path, v).value;
    if |path| > 1 {
      SetDottedBelow(Child(t, path[0]), path[1..], v, q[1..]);
      var rest := q[1..][|path[1..]|..];
      assert rest == q[|path|..];
      assert Get(u, q) == Get(u.entries[path[0]], q[1..]);
    } else {
      assert Get(u, q) == Get(v, q[1..]);
    }
  }

  lemma {:induction false} SetDottedAbove(t: Val, path: Path, v: Val, q: Path)
    requires t.Table? && path != [] && SetDotted(t, path, v).Some? && q <= path && q != path
    ensures var u := SetDotted(t, path, v).value;
            Get(u, q).Some? && Get(u, q).value.Table? && (Get(t, q).None? || Get(t, q).value.Table?)
    decreases |path|
  {
    SetDottedFresh(t, path, v);
    if q != [] {
      PrefixTail(q, path);
      SetDottedAbove(Child(t, path[0]), path[1..], v, q[1..]);
    }
  }

  lemma {:induction false} SetDottedAside(t: Val, path: Path, v: Val, q: Path)
    requires t.Table? && path != [] && SetDotted(t, path, v).Some? && !(path <= q) && !(q <= path)
    ensures Get(SetDotted(t, path, v).value, q) == Get(t, q)
    decreases |path|
  {
    if q[0] == path[0] {
      PrefixTail(path, q);
      PrefixTail(q, path);
      assert |path| > 1;
      SetDottedAside(Child(t, path[0]), path[1..], v, q[1..]);
    }
  }

  lemma {:induction false} PrefixTail(p: Path, q: Path)
    requires p != [] && q != [] && p[0] == q[0]
    ensures p <= q <==> p[1..] <= q[1..]
    ensures p == q <==> p[1..] == q[1..]
    ensures p <= q ==> q[|p|..] == q[1..][|p| - 1..]
  {
    assert p == [p[0]] + p[1..] && q == [q[0]] + q[1..];
  }

  lemma {:induction false} OpenTablesMeaning(t: Val, path: Path, q: Path)
    requires t.Table? && OpenTables(t, path).Some?
    ensures var u := OpenTables(t, path).value;
            && u.Table?
            && (q <= path ==> Get(u, q).Some? && Get(u, q).value.Table? && (Get(t, q).None? || Get(t, q).value.Table?))
            && (!(q <= path) ==> Get(u, q) == Get(t, q))
    decreases |path|
  {
    if path != [] && q != [] && q[0] == path[0] {
      OpenTablesMeaning(Child(t, path[0]), path[1..], q[1..]);
      PrefixTail(q, path);
    } else if path != [] {
      OpenTablesMeaning(Child(t, path[0]), path[1..], []);
    }
  }

  // ----- one line and a value given before

  /** What lies below a path is reached through it. */
  lemma {:induction false} GetThrough(t: Val, p: Path, q: Path)
    requires p <= q && Get(t, q).Some?
    ensures Get(t, p).Some?
    decreases |p|
  {
    if p != [] {
      PrefixTail(p, q);
      GetThrough(t.entries[p[0]], p[1..], q[1..]);
    }
  }

  lemma {:induction false} GetJoins(t: Val, p: Path, q: Path)
    requires Get(t, p).Some?
    ensures Get(t, p + q) == Get(Get(t, p).value, q)
    decreases |p|
  {
    if p == [] {
      assert p + q == q;
    } else {
      GetJoins(t.entries[p[0]], p[1..], q);
      assert (p + q)[1..] == p[1..] + q;
    }
  }

  /** What lies at a path is found below any beginning of it. */
  lemma {:induction false} GetBelow(t: Val, p: Path, q: Path)
    requires p <= q && Get(t, p).Some?
    ensures Get(t, q) == Get(Get(t, p).value, q[|p|..])
  {
    GetJoins(t, p, q[|p|..]);
    assert p + q[|p|..] == q;
  }

  /** Tables that are there already are entered without any change. */
  lemma {:induction false} OpenExisting(t: Val, path: Path)
    requires t.Table? && OpenTables(t, path).Some? && Get(t, path).Some?
    ensures OpenTables(t, path) == Some(t)
    decreases |path|
  {
    if path != [] {
      OpenExisting(t.entries[path[0]], path[1..]);
      assert t.entries[path[0] := t.entries[path[0]]] == t.entries;
    }
  }

  /**
   * Exactly when a key line changes a table that is already there: when the table, by the
   * names it is entered with, lies above the new key.
   */
  lemma {:induction false} KeyChangesExactly(s: State, parts: Path, v: Val, p: Path)
    requires s.root.Table? && KeyLine(s, parts, v).Some? && Get(s.root, p).Some? && Get(s.root, p).value.Table?
    ensures Get(KeyLine(s, parts, v).value.root, p) != Get(s.root, p) <==> p <= s.entered + parts
  {
    var full := s.entered + parts;
    SetDottedFresh(s.root, full, v);
    if p <= full {
      SetDottedBelow(s.root, full, v, full);
      SetDottedAbove(s.root, full, v, p);
      GetBelow(s.root, p, full);
      GetBelow(KeyLine(s, parts, v).value.root, p, full);
    } else if full <= p {
      GetThrough(s.root, full, p);
    } else {
      SetDottedAside(s.root, full, v, p);
    }
  }

  /** Exactly when a header line changes a table that is already there: when it lies above the header's table and that table is new. */
  lemma {:induction false} HeaderChangesExactly(s: State, parts: Path, p: Path)
    requires s.root.Table? && HeaderLine(s, parts).Some? && Get(s.root, p).Some? && Get(s.root, p).value.Table?
    ensures Get(HeaderLine(s, parts).value.root, p) != Get(s.root, p) <==> p <= Trimmed(parts) && Get(s.root, Trimmed(parts)).None?
  {
    var full := Trimmed(parts);
    OpenTablesMeaning(s.root, full, p);
    if p <= full {
      if Get(s.root, full).Some? {
        OpenExisting(s.root, full);
      } else {
        OpenTablesMeaning(s.root, full, full);
        GetBelow(s.root, p, full);
        GetBelow(HeaderLine(s, parts).value.root, p, full);
      }
    }
  }

  /** A value that is no table is never touched by an accepted line. */
  lemma {:induction false} PlainValueStays(s: State, l: Line, p: Path)
    requires s.root.Table? && AfterLine(s, l).Some? && Get(s.root, p).Some? && !Get(s.root, p).value.Table?
    ensures Get(AfterLine(s, l).value.root, p) == Get(s.root, p)
  {
    match l
    case Header(parts) => OpenTablesMeaning(s.root, Trimmed(parts), p);
    case Assign(parts, v) =>
      var full := s.entered + parts;
      SetDottedFresh(s.root, full, v);
      if full <= p {
        GetThrough(s.root, full, p);
      } else if p <= full {
        SetDottedAbove(s.root, full, v, p);
      } else {
        SetDottedAside(s.root, full, v, p);
      }
    case _ =>
  }

  /** Nothing that is in the tree ever leaves it. */
  lemma {:induction false} NothingLeaves(s: State, l: Line, q: Path)
    requires s.root.Table? && AfterLine(s, l).Some? && Get(s.root, q).Some?
    ensures Get(AfterLine(s, l).value.root, q).Some?
  {
    match l
    case Header(parts) => OpenTablesMeaning(s.root, Trimmed(parts), q);
    case Assign(parts, v) =>
      var full := s.entered + parts;
      SetDottedFresh(s.root, full, v);
      if full <= q {
        GetThrough(s.root, full, q);
      } else if q <= full {
        SetDottedAbove(s.root, full, v, q);
      } else {
        SetDottedAside(s.root, full, v, q);
      }
    case _ =>
  }

  predicate Holds(root: Val, g: Assignment) { Get(root, g.path) == Some(g.value) }

  /** Every assigned path holds exactly what its own line gave. */
  predicate AllHold(root: Val, gs: seq<Assignment>) { forall g :: g in gs ==> Holds(root, g) }

  /** A line changes a value given before exactly when it reaches into it. */
  lemma {:induction false} LineChangesExactly(s: State, l: Line, g: Assignment)
    requires s.root.Table? && AfterLine(s, l).Some? && Holds(s.root, g)
    ensures Holds(AfterLine(s, l).value.root, g) <==> !Reaches(g, s.entered, l)
  {
    if !g.value.Table? {
      PlainValueStays(s, l, g.path);
    } else {
      match l
      case Header(parts) =>
        HeaderChangesExactly(s, parts, g.path);
        if g.path <= Trimmed(parts) {
          GetBelow(s.root, g.path, Trimmed(parts));
        }
      case Assign(parts, v) =>
        KeyChangesExactly(s, parts, v, g.path);
        SetDottedFresh(s.root, s.entered + parts, v);
      case _ =>
    }
  }

  // ----- whole documents

  lemma {:induction false} RunEntered(lines: seq<Line>)
    requires Run(lines).Some?
    ensures Run(lines).value.entered == Entered(lines)
  {
    if lines != [] {
      RunEntered(lines[..|lines| - 1]);
    }
  }

  /** The value at the assigned path has something in it that its own line did not give. */
  ghost predicate Grown(root: Val, g: Assignment) {
    exists q :: Get(root, g.path + q).Some? && Get(g.value, q).None?
  }

  lemma {:induction false} GrownDoesNotHold(root: Val, g: Assignment)
    requires Grown(root, g)
    ensures !Holds(root, g)
  {
    var q :| Get(root, g.path + q).Some? && Get(g.value, q).None?;
    if Get(root, g.path).Some? {
      GetJoins(root, g.path, q);
    }
  }

  lemma {:induction false} GrownStays(s: State, l: Line, g: Assignment)
    requires s.root.Table? && AfterLine(s, l).Some? && Grown(s.root, g)
    ensures Grown(AfterLine(s, l).value.root, g)
  {
    var q :| Get(s.root, g.path + q).Some? && Get(g.value, q).None?;
    NothingLeaves(s, l, g.path + q);
  }

  /** A line that reaches into a value leaves something new in it. */
  lemma {:induction false} ReachingGrows(s: State, l: Line, g: Assignment)
    requires s.root.Table? && AfterLine(s, l).Some? && Holds(s.root, g) && Reaches(g, s.entered, l)
    ensures Grown(AfterLine(s, l).value.root, g)
  {
    var full := if l.Header? then Trimmed(l.parts) else s.entered + l.parts;
    var q := full[|g.path|..];
    assert g.path + q == full;
    GetBelow(s.root, g.path, full);
    if l.Header? {
      OpenTablesMeaning(s.root, full, full);
    } else {
      SetDottedFresh(s.root, full, l.value);
      SetDottedBelow(s.root, full, l.value, full);
    }
  }

  lemma {:induction false} LastAssignment(lines: seq<Line>)
    requires Run(lines).Some? && lines != [] && lines[|lines| - 1].Assign?
    ensures var gs := Assignments(lines); gs != [] && Holds(Run(lines).value.root, gs[|gs| - 1])
  {
    var front, last := lines[..|lines| - 1], lines[|lines| - 1];
    RunEntered(front);
    var full := Entered(front) + last.parts;
    SetDottedBelow(Run(front).value.root, full, last.value, full);
  }

  lemma {:induction false} OneLineMore(lines: seq<Line>)
    requires Run(lines).Some? && lines != [] && !Intrudes(lines[..|lines| - 1])
    requires AllHold(Run(lines[..|lines| - 1]).value.root, Assignments(lines[..|lines| - 1]))
    ensures !Intrudes(lines) ==> AllHold(Run(lines).value.root, Assignments(lines))
    ensures Intrudes(lines) ==> exists g :: g in Assignments(lines) && Grown(Run(lines).value.root, g)
  {
    var front, last := lines[..|lines| - 1], lines[|lines| - 1];
    var s := Run(front).value;
    RunEntered(front);
    if Intrudes(lines) {
      var g :| g in Assignments(front) && Reaches(g, Entered(front), last);
      ReachingGrows(s, last, g);
      assert g in Assignments(lines);
    } else {
      forall g | g in Assignments(front) ensures Holds(Run(lines).value.root, g) {
        LineChangesExactly(s, last, g);
      }
      if last.Assign? {
        LastAssignment(lines);
      }
    }
  }

  lemma {:induction false} HoldsOrGrows(lines: seq<Line>)
    requires Run(lines).Some?
    ensures !Intrudes(lines) ==> AllHold(Run(lines).value.root, Assignments(lines))
    ensures Intrudes(lines) ==> exists g :: g in Assignments(lines) && Grown(Run(lines).value.root, g)
  {
    if lines != [] {
      var front := lines[..|lines| - 1];
      HoldsOrGrows(front);
      if Intrudes(front) {
        var g :| g in Assignments(front) && Grown(Run(front).value.root, g);
        GrownStays(Run(front).value, lines[|lines| - 1], g);
        assert g in Assignments(lines);
      } else {
        OneLineMore(lines);
      }
    }
  }

  /**
   * Exactly when an accepted document ends with each key line's path holding that line's
   * value: when no later key line's path, by the names of the tables it is entered
   * through, lies below an earlier inline table, and no later header makes a table inside
   * one.
   */
  lemma {:induction false} DocumentHoldsExactlyWhen(lines: seq<Line>)
    requires Run(lines).Some?
    ensures AllHold(Run(lines).value.root, Assignments(lines)) <==> !Intrudes(lines)
  {
    HoldsOrGrows(lines);
    if Intrudes(lines) {
      var g :| g in Assignments(lines) && Grown(Run(lines).value.root, g);
      GrownDoesNotHold(Run(lines).value.root, g);
    }
  }

  // ----- nothing else is in the tree

  /** Neither is at or below the other. */
  predicate Apart(p: Path, q: Path) { !(p <= q) && !(q <= p) }

  /** Every value in the tree that is not a table lies at or in what some line assigned. */
  ghost predicate Covered(root: Val, gs: seq<Assignment>, q: Path) {
    Get(root, q).Some? && !Get(root, q).value.Table? ==> exists i :: 0 <= i < |gs| && gs[i].path <= q
  }

  /** A key's path stays clear of a value that it does not reach into. */
  lemma {:induction false} KeyIsApart(s: State, g: Assignment, parts: Path, v: Val)
    requires s.root.Table? && KeyLine(s, parts, v).Some? && Holds(s.root, g) && !Reaches(g, s.entered, Assign(parts, v))
    ensures Apart(g.path, s.entered + parts)
  {
    var full := s.entered + parts;
    SetDottedFresh(s.root, full, v);
    if full <= g.path {
      GetThrough(s.root, full, g.path);
    } else if g.path <= full {
      SetDottedAbove(s.root, full, v, g.path);
    }
  }

  lemma {:induction false} LineCovers(s: State, gs: seq<Assignment>, l: Line, q: Path)
    requires s.root.Table? && AfterLine(s, l).Some? && Covered(s.root, gs, q)
    ensures Covered(AfterLine(s, l).value.root, if l.Assign? then gs + [Assignment(s.entered + l.parts, l.value)] else gs, q)
  {
    match l
    case Header(parts) => OpenTablesMeaning(s.root, Trimmed(parts), q);
    case Assign(parts, v) =>
      var full := s.entered + parts;
      var after := gs + [Assignment(full, v)];
      if full <= q {
        assert after[|gs|].path <= q;
      } else {
        if q <= full {
          SetDottedAbove(s.root, full, v, q);
        } else {
          SetDottedAside(s.root, full, v, q);
        }
        assert forall i :: 0 <= i < |gs| ==> after[i] == gs[i];
      }
    case _ =>
  }

  lemma {:induction false} RunCovers(lines: seq<Line>, q: Path)
    requires Run(lines).Some?
    ensures Covered(Run(lines).value.root, Assignments(lines), q)
  {
    if lines != [] {
      var front := lines[..|lines| - 1];
      RunEntered(front);
      RunCovers(front, q);
      LineCovers(Run(front).value, Assignments(front), lines[|lines| - 1], q);
    } else if q != [] {
      assert Get(START.root, q).None?;
    }
  }

  lemma {:induction false} PathsApart(lines: seq<Line>)
    requires Run(lines).Some? && !Intrudes(lines)
    ensures var gs := Assignments(lines); forall i, j :: 0 <= i < j < |gs| ==> Apart(gs[i].path, gs[j].path)
  {
    if lines != [] {
      var front, last := lines[..|lines| - 1], lines[|lines| - 1];
      PathsApart(front);
      if last.Assign? {
        RunEntered(front);
        DocumentHoldsExactlyWhen(front);
        var gs := Assignments(front);
        forall i | 0 <= i < |gs| ensures Apart(gs[i].path, Entered(front) + last.parts) {
          assert gs[i] in gs;
          KeyIsApart(Run(front).value, gs[i], last.parts, last.value);
        }
        assert Assignments(lines) == gs + [Assignment(Entered(front) + last.parts, last.value)];
      }
    }
  }

  /**
   * In an accepted document without such a line, every path ends holding its line's value,
   * no two of these paths lie at or below one another, and nothing else is in the tree: each
   * plain value in it is found where a line put it, or inside an inline table that a line
   * gave.
   */
  lemma {:induction false} DocumentHoldsItsLines(lines: seq<Line>)
    requires Run(lines).Some? && !Intrudes(lines)
    ensures var root := Run(lines).value.root; var gs := Assignments(lines);
            && (forall i :: 0 <= i < |gs| ==> Holds(root, gs[i]))
            && (forall i, j :: 0 <= i < j < |gs| ==> Apart(gs[i].path, gs[j].path))
            && (forall q, v :: Get(root, q) == Some(v) && !v.Table? ==>
                  exists i :: 0 <= i < |gs| && gs[i].path <= q && Get(gs[i].value, q[|gs[i].path|..]) == Some(v))
  {
    var root := Run(lines).value.root;
    var gs := Assignments(lines);
    DocumentHoldsExactlyWhen(lines);
    PathsApart(lines);
    forall i | 0 <= i < |gs| ensures Holds(root, gs[i]) {
      assert gs[i] in gs;
    }
    forall q, v | Get(root, q) == Some(v) && !v.Table?
      ensures exists i :: 0 <= i < |gs| && gs[i].path <= q && Get(gs[i].value, q[|gs[i].path|..]) == Some(v)
    {
      RunCovers(lines, q);
      var i :| 0 <= i < |gs| && gs[i].path <= q;
      GetBelow(root, gs[i].path, q);
    }
  }

  // ----- headers without outer blanks

  /** The checks keep every inline table's path: it is recorded, and the current header does not lie in it. */
  predicate Recorded(s: State, gs: seq<Assignment>) {
    && s.entered == s.current
    && forall g :: g in gs && g.value.Table? ==> g.path in s.inlines && !(g.path <= s.current)
  }

  lemma {:induction false} NothingReached(s: State, gs: seq<Assignment>, l: Line, g: Assignment)
    requires s.root.Table? && AfterLine(s, l).Some? && Recorded(s, gs) && g in gs
    requires l.Header? ==> Trimmed(l.parts) == l.parts
    ensures !Reaches(g, s.entered, l)
  {
    if l.Assign? && g.value.Table? && g.path <= s.current + l.parts && g.path != s.current + l.parts {
      var k := |g.path| - |s.current|;
      assert g.path == s.current + l.parts[..k];
      assert g.path in DottedTables(s.current, l.parts) && UnderInline(s.inlines, g.path);
    }
  }

  lemma {:induction false} RecordKept(s: State, gs: seq<Assignment>, l: Line)
    requires s.root.Table? && AfterLine(s, l).Some? && Recorded(s, gs)
    requires l.Header? ==> Trimmed(l.parts) == l.parts
    ensures Recorded(AfterLine(s, l).value, if l.Assign? then gs + [Assignment(s.entered + l.parts, l.value)] else gs)
  {
    if l.Assign? {
      assert !(s.current + l.parts <= s.current);
    }
  }

  lemma {:induction false} TrimmedRecorded(lines: seq<Line>)
    requires Run(lines).Some? && HeadersTrimmed(lines)
    ensures Recorded(Run(lines).value, Assignments(lines)) && !Intrudes(lines)
  {
    if lines != [] {
      var front, last := lines[..|lines| - 1], lines[|lines| - 1];
      TrimmedRecorded(front);
      RunEntered(front);
      RecordKept(Run(front).value, Assignments(front), last);
      forall g | g in Assignments(front) ensures !Reaches(g, Entered(front), last) {
        NothingReached(Run(front).value, Assignments(front), last, g);
      }
    }
  }

  /** So a document whose quoted header parts have no outer blanks always holds its lines. */
  lemma {:induction false} TrimmedDocumentHolds(lines: seq<Line>)
    requires Run(lines).Some? && HeadersTrimmed(lines)
    ensures AllHold(Run(lines).value.root, Assignments(lines))
  {
    TrimmedRecorded(lines);
    DocumentHoldsExactlyWhen(lines);
  }

  // ----- two documents that do not

  const INLINE := Table(map["x" := Int(1)])
  const LONGER := Table(map["x" := Int(1), "y" := Int(2)])

  lemma {:induction false} FirstLineHolds()
    ensures KeyLine(START, ["a"], INLINE) == Some(State(Table(map["a" := INLINE]), [], [], {}, {}, {["a"]}))
  {
    var none: Path := [];
    var a: Path := ["a"];
    assert none + a == a;
    assert DottedTables(none, a) == {};
    assert START.root.entries["a" := INLINE] == map["a" := INLINE];
    assert SetDotted(START.root, a, INLINE) == Some(Table(map["a" := INLINE]));
    var noPaths: set<Path> := {};
    assert noPaths + noPaths == noPaths && noPaths + {a} == {a};
    assert !DottedConflict(START, a);
  }

  lemma {:induction false} HeaderSlips()
    ensures HeaderLine(State(Table(map["a" := INLINE]), [], [], {}, {}, {["a"]}), [" a "])
            == Some(State(Table(map["a" := INLINE]), [" a "], ["a"], {[" a "]}, {}, {["a"]}))
  {
    var s := State(Table(map["a" := INLINE]), [], [], {}, {}, {["a"]});
    assert Stripped(" a ") == "a" by {
      assert " a "[1..] == "a " && "a "[..1] == "a";
    }
    var a: Path := ["a"];
    assert Trimmed([" a "]) == a;
    assert " a "[0] != "a"[0];
    var none: Path := [];
    assert a[1..] == none;
    assert s.root.entries["a" := INLINE] == s.root.entries;
    assert OpenTables(INLINE, none) == Some(INLINE);
    assert OpenTables(s.root, a) == Some(s.root);
    var blank: Path := [" a "];
    assert !(a <= blank) by {
      assert a[0] != blank[0];
    }
    assert !UnderInline(s.inlines, blank);
    assert "" !in Trimmed(blank);
    assert s.declared + {blank} == {blank};
    assert blank !in s.declared && blank !in s.implicit;
    assert HeaderLine(s, blank).Some?;
  }

  lemma {:induction false} InlineTableGrows()
    ensures var s := KeyLine(State(Table(map["a" := INLINE]), [" a "], ["a"], {[" a "]}, {}, {["a"]}), ["y"], Int(2));
            s.Some? && s.value.root == Table(map["a" := LONGER])
  {
    var y: Path := ["y"];
    assert DottedTables([" a "], y) == {};
    var ay: Path := ["a", "y"];
    assert ["a"] + y == ay && ay[1..] == y;
    assert SetDotted(INLINE, y, Int(2)) == Some(LONGER);
  }

  lemma {:induction false} OneLonger(front: seq<Line>, l: Line)
    ensures Run(front + [l]) == if Run(front).None? then None else AfterLine(Run(front).value, l)
    ensures Entered(front + [l]) == if l.Header? then Trimmed(l.parts) else Entered(front)
    ensures Assignments(front + [l]) ==
            if l.Assign? then Assignments(front) + [Assignment(Entered(front) + l.parts, l.value)] else Assignments(front)
    ensures Intrudes(front + [l]) <==> Intrudes(front) || exists g :: g in Assignments(front) && Reaches(g, Entered(front), l)
  {
    var lines := front + [l];
    assert lines[..|lines| - 1] == front && lines[|lines| - 1] == l;
  }

  /** The document with the inline table alone. */
  lemma {:induction false} FirstLineRuns()
    ensures var d := [Assign(["a"], INLINE)];
            && Run(d) == Some(State(Table(map["a" := INLINE]), [], [], {}, {}, {["a"]}))
            && Entered(d) == [] && Assignments(d) == [Assignment(["a"], INLINE)] && !Intrudes(d)
  {
    var none: seq<Line> := [];
    OneLonger(none, Assign(["a"], INLINE));
    assert none + [Assign(["a"], INLINE)] == [Assign(["a"], INLINE)];
    FirstLineHolds();
    var root: Path := [];
    var a: Path := ["a"];
    assert root + a == a;
  }

  lemma {:induction false} HeaderRuns()
    ensures var d := [Assign(["a"], INLINE), Header([" a "])];
            && Run(d) == Some(State(Table(map["a" := INLINE]), [" a "], ["a"], {[" a "]}, {}, {["a"]}))
            && Entered(d) == ["a"] && Assignments(d) == [Assignment(["a"], INLINE)]
  {
    var d1 := [Assign(["a"], INLINE)];
    FirstLineRuns();
    HeaderSlips();
    OneLonger(d1, Header([" a "]));
    assert d1 + [Header([" a "])] == [Assign(["a"], INLINE), Header([" a "])];
  }

  lemma {:induction false} KeyReaches()
    ensures Reaches(Assignment(["a"], INLINE), ["a"], Assign(["y"], Int(2)))
  {
    var a: Path := ["a"];
    var y: Path := ["y"];
    assert a + y == ["a", "y"] && a <= a + y;
  }

  /** A quoted header part with outer blanks slips past the checks: a key below it extends an inline table given before. */
  lemma {:induction false} UntrimmedHeaderExtendsInlineTable()
    ensures exists lines :: Run(lines).Some? && |lines| == 3 && Intrudes(lines) && !AllHold(Run(lines).value.root, Assignments(lines))
  {
    var d2 := [Assign(["a"], INLINE), Header([" a "])];
    var d3 := d2 + [Assign(["y"], Int(2))];
    assert Run(d3).Some? && Intrudes(d3) by {
      hide Reaches, KeyLine, Run, Intrudes, Assignments, Entered;
      HeaderRuns();
      InlineTableGrows();
      KeyReaches();
      OneLonger(d2, Assign(["y"], Int(2)));
      assert Assignment(["a"], INLINE) in Assignments(d2);
    }
    hide *;
    DocumentHoldsExactlyWhen(d3);
  }

  /** The header alone is enough: it makes a new table inside the inline table. */
  lemma {:induction false} UntrimmedHeaderAloneExtends()
    ensures exists lines :: Run(lines).Some? && |lines| == 2 && Intrudes(lines) && !AllHold(Run(lines).value.root, Assignments(lines))
  {
    var d1 := [Assign(["a"], INLINE)];
    var l := Header([" a ", "b"]);
    assert Run(d1 + [l]).Some? && Intrudes(d1 + [l]) by {
      hide Reaches, HeaderLine, Run, Intrudes, Assignments, Entered;
      FirstLineRuns();
      HeaderBelowSlips();
      HeaderReaches();
      OneLonger(d1, l);
      assert Assignment(["a"], INLINE) in Assignments(d1);
    }
    hide *;
    DocumentHoldsExactlyWhen(d1 + [l]);
  }

  lemma {:induction false} HeaderReaches()
    ensures Reaches(Assignment(["a"], INLINE), [], Header([" a ", "b"]))
  {
    HeaderBelowSlips();
    hide Trimmed, HeaderLine;
  }

  lemma {:induction false} HeaderBelowSlips()
    ensures HeaderLine(State(Table(map["a" := INLINE]), [], [], {}, {}, {["a"]}), [" a ", "b"]).Some?
    ensures ["a"] <= Trimmed([" a ", "b"]) && Get(INLINE, Trimmed([" a ", "b"])[1..]).None?
  {
    var s := State(Table(map["a" := INLINE]), [], [], {}, {}, {["a"]});
    assert Stripped(" a ") == "a" by {
      assert " a "[1..] == "a " && "a "[..1] == "a";
    }
    StrippedKeeps("b");
    var parts: Path := [" a ", "b"];
    var ab: Path := ["a", "b"];
    var b: Path := ["b"];
    var none: Path := [];
    assert Trimmed(parts) == ab && ab[1..] == b && b[1..] == none;
    assert "b" !in INLINE.entries;
    var a: Path := ["a"];
    assert !(a <= parts) by {
      assert a[0] != parts[0];
    }
    assert !UnderInline(s.inlines, parts) && "" !in ab;
    assert OpenTables(Table(map[]), none).Some?;
    assert OpenTables(INLINE, b).Some?;
    assert OpenTables(s.root, ab).Some?;
  }
}
