/**
 * Pruning of expired sessions (agent_collab/daemon.py, agent_collab/session_index.py and
 * the ownership rule of agent_collab/retention.py): transcripts are unlinked, then the
 * records leave the index in one rewrite, then the registry. There is no transaction.
 */
module Prune {
  import opened Common
  import opened Events
  import opened Retention

  // ----- which files are a session's own

  const JSONL := ".jsonl"
  const MARKDOWN := ".md"

  /** A transcript path and why it is not touched. */
  datatype Preserved = Preserved(path: string, reason: string)

  datatype TranscriptPlan = TranscriptPlan(id: string, deletable: seq<string>, preserved: seq<Preserved>)

  predicate IsValidSessionId(id: string) {
    id != "" && '/' !in id && '\\' !in id && id != "." && id != ".."
  }

  function ManagedPath(dir: string, id: string, suffix: string): string { dir + "/" + id + suffix }

  function ClassifyOne(plan: TranscriptPlan, recorded: Option<string>, expected: string): TranscriptPlan {
    if recorded.None? || recorded.value == "" then plan
    else if !IsValidSessionId(plan.id) then
      plan.(preserved := plan.preserved + [Preserved(recorded.value, "invalid session id")])
    else if recorded.value == expected then plan.(deletable := plan.deletable + [expected])
    else plan.(preserved := plan.preserved + [Preserved(recorded.value, "outside the managed session directory")])
  }

  function ClassifyTranscriptPaths(r: Record, dir: string): TranscriptPlan {
    ClassifyOne(
      ClassifyOne(TranscriptPlan(r.id, [], []), r.jsonl, ManagedPath(dir, r.id, JSONL)),
      r.markdown, ManagedPath(dir, r.id, MARKDOWN))
  }

  /** A path belongs to a session if it is one of its two managed paths. */
  predicate Owns(dir: string, id: string, path: string) {
    path == ManagedPath(dir, id, JSONL) || path == ManagedPath(dir, id, MARKDOWN)
  }

  /** No two sessions own the same file. */
  lemma OneOwner(dir: string, id: string, other: string, path: string)
    requires Owns(dir, id, path) && Owns(dir, other, path)
    ensures id == other
  {
    var n := |dir| + 1;
    var suffix := if path == ManagedPath(dir, id, JSONL) then JSONL else MARKDOWN;
    assert path[|path| - 1] == suffix[|suffix| - 1];
    assert path == ManagedPath(dir, other, suffix) by {
      if path == ManagedPath(dir, other, JSONL) {
        assert path[|path| - 1] == 'l';
      } else {
        assert path[|path| - 1] == 'd';
      }
    }
    assert path[n..|path| - |suffix|] == id;
    assert path[n..|path| - |suffix|] == other;
  }

  /** Each recorded path is deletable or reported, and only a managed path of a valid id is deletable. */
  lemma EveryPathClassified(r: Record, dir: string)
    ensures var plan := ClassifyTranscriptPaths(r, dir);
            && (forall p :: p in plan.deletable <==>
                  && IsValidSessionId(r.id) && p != ""
                  && ((r.jsonl == Some(p) && p == ManagedPath(dir, r.id, JSONL))
                      || (r.markdown == Some(p) && p == ManagedPath(dir, r.id, MARKDOWN))))
            && (forall p :: p != "" && (r.jsonl == Some(p) || r.markdown == Some(p)) ==>
                  p in plan.deletable || exists k :: 0 <= k < |plan.preserved| && plan.preserved[k].path == p)
  {
    var first := ClassifyOne(TranscriptPlan(r.id, [], []), r.jsonl, ManagedPath(dir, r.id, JSONL));
    var plan := ClassifyTranscriptPaths(r, dir);
    assert first.preserved <= plan.preserved && first.deletable <= plan.deletable;
    if r.jsonl.Some? && r.jsonl.value != "" && r.jsonl.value !in plan.deletable {
      assert first.preserved != [] && plan.preserved[0].path == r.jsonl.value;
    }
    if r.markdown.Some? && r.markdown.value != "" && r.markdown.value !in plan.deletable {
      assert plan.preserved[|plan.preserved| - 1].path == r.markdown.value;
    }
  }

  // ----- unlinking

  datatype FileKind = Regular(size: nat) | Symlink | Special

  /** What goes wrong at a path: the first inspection, the second, or the unlinking. */
  datatype Trouble = Fine | Unreadable | StatFails | UnlinkFails

  type Files = map<string, FileKind>

  datatype Outcome = Outcome(removed: seq<string>, preserved: seq<Preserved>, size: nat, failed: bool)

  datatype Visit = Kept(reason: string) | Absent | Broken | Taken(size: nat)

  function VisitPath(files: Files, path: string, apply: bool, trouble: Trouble): Visit {
    if trouble.Unreadable? then Kept("unreadable")
    else if path in files && files[path].Symlink? then Kept("symlink")
    else if path in files && files[path].Special? then Kept("not a regular file")
    else if trouble.StatFails? then Broken
    else if path !in files then Absent
    else if apply && trouble.UnlinkFails? then Broken
    else Taken(files[path].size)
  }

  function Noted(o: Outcome, path: string, v: Visit): Outcome {
    match v
    case Kept(reason) => o.(preserved := o.preserved + [Preserved(path, reason)])
    case Absent => o
    case Broken => o.(failed := true)
    case Taken(size) => o.(removed := o.removed + [path], size := o.size + size)
  }

  function FilesAfter(files: Files, path: string, apply: bool, v: Visit): Files {
    if apply && v.Taken? then files - {path} else files
  }

  datatype Swept = Swept(files: Files, outcome: Outcome)

  function SweepPaths(files: Files, paths: seq<string>, apply: bool, trouble: string -> Trouble): Swept {
    if paths == [] then Swept(files, Outcome([], [], 0, false))
    else
      var path := paths[|paths| - 1];
      var before := SweepPaths(files, paths[..|paths| - 1], apply, trouble);
      var v := VisitPath(before.files, path, apply, trouble(path));
      Swept(FilesAfter(before.files, path, apply, v), Noted(before.outcome, path, v))
  }

  datatype SweptAll = SweptAll(files: Files, outcomes: map<string, Outcome>)

  function SweepAll(files: Files, plans: seq<TranscriptPlan>, apply: bool, trouble: string -> Trouble): SweptAll {
    if plans == [] then SweptAll(files, map[])
    else
      var plan := plans[|plans| - 1];
      var before := SweepAll(files, plans[..|plans| - 1], apply, trouble);
      var swept := SweepPaths(before.files, plan.deletable, apply, trouble);
      SweptAll(swept.files, before.outcomes[plan.id := swept.outcome])
  }

  class Disk {
    var files: Files

    constructor (files: Files)
      ensures this.files == files
    {
      this.files := files;
    }

    /** Why a path must not be unlinked; a missing file is no reason. */
    method TranscriptUnlinkBlocker(path: string, trouble: Trouble) returns (reason: Option<string>)
      ensures reason == match VisitPath(files, path, true, trouble) case Kept(why) => Some(why) case _ => None
    {
      if trouble == Unreadable {
        return Some("unreadable");
      }
      if path !in files {
        return None;
      }
      match files[path] {
        case Symlink => reason := Some("symlink");
        case Special => reason := Some("not a regular file");
        case Regular(_) => reason := None;
      }
    }

    /** One path of a plan: why it stays, or what went wrong, or its size. */
    method UnlinkOne(path: string, apply: bool, trouble: Trouble) returns (v: Visit)
      modifies this
      ensures v == VisitPath(old(files), path, apply, trouble) && files == FilesAfter(old(files), path, apply, v)
    {
      var blocker := TranscriptUnlinkBlocker(path, trouble);
      if blocker.Some? {
        return Kept(blocker.value);
      }
      if trouble == StatFails {
        return Broken;
      }
      if path !in files {
        return Absent;
      }
      var size := files[path].size;
      if apply {
        if trouble == UnlinkFails {
          return Broken;
        }
        files := files - {path};
      }
      v := Taken(size);
    }

    method UnlinkPlanned(paths: seq<string>, apply: bool, trouble: string -> Trouble) returns (o: Outcome)
      modifies this
      ensures Swept(files, o) == SweepPaths(old(files), paths, apply, trouble)
    {
      hide VisitPath, FilesAfter, Noted;
      o := Outcome([], [], 0, false);
      for j := 0 to |paths|
        invariant Swept(files, o) == SweepPaths(old(files), paths[..j], apply, trouble)
      {
        assert paths[..j + 1][..j] == paths[..j];
        var v := UnlinkOne(paths[j], apply, trouble(paths[j]));
        o := Noted(o, paths[j], v);
      }
      assert paths[..|paths|] == paths;
    }

    method ExecuteTranscriptUnlinks(plans: seq<TranscriptPlan>, apply: bool, trouble: string -> Trouble)
      returns (outcomes: map<string, Outcome>)
      modifies this
      ensures SweptAll(files, outcomes) == SweepAll(old(files), plans, apply, trouble)
    {
      outcomes := map[];
      for i := 0 to |plans|
        invariant SweptAll(files, outcomes) == SweepAll(old(files), plans[..i], apply, trouble)
      {
        assert plans[..i + 1][..i] == plans[..i];
        var o := UnlinkPlanned(plans[i].deletable, apply, trouble);
        outcomes := outcomes[plans[i].id := o];
      }
      assert plans[..|plans|] == plans;
    }
  }

  function SizeAt(files: Files, path: string): nat {
    if path in files && files[path].Regular? then files[path].size else 0
  }

  /** The sizes of the listed files. */
  function TotalSize(files: Files, paths: seq<string>): nat {
    if paths == [] then 0 else TotalSize(files, paths[..|paths| - 1]) + SizeAt(files, paths[|paths| - 1])
  }

  function Elements(paths: seq<string>): set<string> { set p | p in paths }

  predicate Distinct(paths: seq<string>) { forall i, j :: 0 <= i < j < |paths| ==> paths[i] != paths[j] }

  predicate Reported(o: Outcome, path: string) { exists k :: 0 <= k < |o.preserved| && o.preserved[k].path == path }

  lemma OneMoreRemoved(files: Files, removed: seq<string>, path: string)
    requires path in files - Elements(removed) && Distinct(removed)
    ensures Distinct(removed + [path]) && files - Elements(removed) - {path} == files - Elements(removed + [path])
    ensures TotalSize(files, removed + [path]) == TotalSize(files, removed) + SizeAt(files, path)
  {
    assert (removed + [path])[..|removed|] == removed;
    assert Elements(removed + [path]) == Elements(removed) + {path};
  }

  /** Exactly the removed paths are gone, and their sizes are what is counted. */
  ghost predicate Balanced(files: Files, s: Swept) {
    var removed := s.outcome.removed;
    s.files == files - Elements(removed) && s.outcome.size == TotalSize(files, removed) && Distinct(removed)
  }

  lemma VisitBalanced(files: Files, before: Swept, path: string, trouble: Trouble)
    requires Balanced(files, before)
    ensures var v := VisitPath(before.files, path, true, trouble);
            && Balanced(files, Swept(FilesAfter(before.files, path, true, v), Noted(before.outcome, path, v)))
            && (v.Taken? ==> path in files && files[path].Regular?)
  {
    hide Distinct, TotalSize, Elements;
    if VisitPath(before.files, path, true, trouble).Taken? {
      OneMoreRemoved(files, before.outcome.removed, path);
    }
  }

  /** A sweep removes what it says it removed and nothing else: regular files of the plan. */
  lemma {:induction false} SweepRemoves(files: Files, paths: seq<string>, trouble: string -> Trouble)
    ensures var s := SweepPaths(files, paths, true, trouble);
            Balanced(files, s) && forall p :: p in s.outcome.removed ==> p in paths && p in files && files[p].Regular?
  {
    if paths == [] {
      assert Balanced(files, SweepPaths(files, paths, true, trouble));
    } else {
      hide Balanced, VisitPath, FilesAfter;
      var front, path := paths[..|paths| - 1], paths[|paths| - 1];
      SweepRemoves(files, front, trouble);
      var before := SweepPaths(files, front, true, trouble);
      VisitBalanced(files, before, path, trouble(path));
    }
  }

  /** Unless a sweep reports a failure, every path of the plan is absent afterwards or reported as preserved. */
  lemma {:induction false} SweepLeavesNothing(files: Files, paths: seq<string>, trouble: string -> Trouble, path: string)
    requires path in paths && !SweepPaths(files, paths, true, trouble).outcome.failed
    ensures var s := SweepPaths(files, paths, true, trouble); path !in s.files || Reported(s.outcome, path)
  {
    var n := |paths| - 1;
    var before := SweepPaths(files, paths[..n], true, trouble);
    var s := SweepPaths(files, paths, true, trouble);
    var v := VisitPath(before.files, paths[n], true, trouble(paths[n]));
    if path == paths[n] {
      assert v.Kept? ==> s.outcome.preserved[|s.outcome.preserved| - 1].path == path;
    } else {
      SweepLeavesNothing(files, paths[..n], trouble, path);
      if Reported(before.outcome, path) {
        var k :| 0 <= k < |before.outcome.preserved| && before.outcome.preserved[k].path == path;
        assert s.outcome.preserved[k].path == path;
      }
    }
  }

  /** A preview reports what applying would do, wherever no unlinking fails, and changes nothing. */
  lemma {:induction false} PreviewIsExact(files: Files, paths: seq<string>, trouble: string -> Trouble)
    requires Distinct(paths) && forall p :: p in paths ==> !trouble(p).UnlinkFails?
    ensures SweepPaths(files, paths, false, trouble)
            == Swept(files, SweepPaths(files, paths, true, trouble).outcome)
  {
    if paths != [] {
      var n := |paths| - 1;
      PreviewIsExact(files, paths[..n], trouble);
      SweepRemoves(files, paths[..n], trouble);
      assert paths[n] !in paths[..n];
    }
  }

  lemma {:induction false} PreviewKeepsFiles(files: Files, plans: seq<TranscriptPlan>, trouble: string -> Trouble)
    ensures SweepAll(files, plans, false, trouble).files == files
  {
    if plans != [] {
      PreviewKeepsFiles(files, plans[..|plans| - 1], trouble);
      PreviewKeepsPath(files, plans[|plans| - 1].deletable, trouble);
    }
  }

  lemma {:induction false} PreviewKeepsPath(files: Files, paths: seq<string>, trouble: string -> Trouble)
    ensures SweepPaths(files, paths, false, trouble).files == files
  {
    if paths != [] {
      PreviewKeepsPath(files, paths[..|paths| - 1], trouble);
    }
  }

  /** Files only disappear, and only regular ones that some plan lists. */
  lemma {:induction false} SweepAllRemoves(files: Files, plans: seq<TranscriptPlan>, trouble: string -> Trouble)
    ensures var t := SweepAll(files, plans, true, trouble).files;
            && (forall p :: p in t ==> p in files && t[p] == files[p])
            && (forall p :: p in files && p !in t ==>
                  files[p].Regular? && exists k :: 0 <= k < |plans| && p in plans[k].deletable)
  {
    if plans != [] {
      var n := |plans| - 1;
      SweepAllRemoves(files, plans[..n], trouble);
      var t := SweepAll(files, plans[..n], true, trouble).files;
      SweepRemoves(t, plans[n].deletable, trouble);
      forall p | p in files && p !in SweepAll(files, plans, true, trouble).files
        ensures files[p].Regular? && exists k :: 0 <= k < |plans| && p in plans[k].deletable
      {
        if p !in t {
          var k :| 0 <= k < n && p in plans[..n][k].deletable;
          assert p in plans[k].deletable;
        }
      }
    }
  }

  predicate DistinctPlans(plans: seq<TranscriptPlan>) { forall i, j :: 0 <= i < j < |plans| ==> plans[i].id != plans[j].id }

  /** A session that the sweep reports without failure has each of its planned files absent or reported. */
  lemma {:induction false} SweepAllLeavesNothing(files: Files, plans: seq<TranscriptPlan>, trouble: string -> Trouble, k: nat, path: string)
    requires DistinctPlans(plans) && k < |plans| && path in plans[k].deletable
    ensures var s := SweepAll(files, plans, true, trouble);
            plans[k].id in s.outcomes
            && (!s.outcomes[plans[k].id].failed ==> path !in s.files || Reported(s.outcomes[plans[k].id], path))
  {
    var n := |plans| - 1;
    var before := SweepAll(files, plans[..n], true, trouble);
    if k < n {
      SweepAllLeavesNothing(files, plans[..n], trouble, k, path);
      SweepRemoves(before.files, plans[n].deletable, trouble);
    } else {
      var swept := SweepPaths(before.files, plans[n].deletable, true, trouble);
      if !swept.outcome.failed {
        SweepLeavesNothing(before.files, plans[n].deletable, trouble, path);
      }
    }
  }

  // ----- the index

  class SessionIndex {
    var sessions: map<string, Record>

    constructor ()
      ensures sessions == map[]
    {
      sessions := map[];
    }

    /** Replaces one record in one rewrite, which may fail and then changes nothing. */
    method Upsert(record: Record, writeFails: bool) returns (r: Result<(), string>)
      modifies this
      ensures r.Ok? <==> record.id != "" && !writeFails
      ensures sessions == if r.Ok? then old(sessions)[record.id := record] else old(sessions)
    {
      if record.id == "" {
        return Err("session state must include session_id");
      }
      if writeFails {
        return Err("cannot write the session index");
      }
      sessions := sessions[record.id := record];
      r := Ok(());
    }

    /** One atomic rewrite, which may fail and then changes nothing; without a known id there is no rewrite. */
    method RemoveMany(ids: set<string>, writeFails: bool) returns (ok: bool)
      modifies this
      ensures ok <==> !writeFails || ids !! sessions.Keys
      ensures sessions == if ok then old(sessions) - ids else old(sessions)
    {
      if ids == {} {
        return true;
      }
      var remaining := sessions - ids;
      if remaining == sessions {
        return true;
      }
      if writeFails {
        return false;
      }
      sessions := remaining;
      ok := true;
    }
  }
}
