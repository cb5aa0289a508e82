/** Whole prune runs with their crash and failure points, and why rerunning the selection recovers them. */
module PruneRuns {
  import opened Common
  import opened Events
  import opened Retention
  import opened Prune

  /** `busy` holds the sessions whose task has not finished. */
  datatype World = World(registry: seq<Record>, busy: set<string>, index: map<string, Record>, files: Files)

  /** What one prune call is asked, and what goes wrong at each path while it runs. */
  datatype Call = Call(dir: string, cutoff: int, keep: nat, trouble: string -> Trouble)

  /** How an applied run ends: in full or with a failed index write, or in a crash at any point. */
  datatype Fate = Applied(writeFails: bool) | CrashInSweep(plans: nat, paths: nat) | CrashBeforeIndex | CrashAfterIndex

  predicate Synced(w: World) {
    && UniqueIds(w.registry)
    && (forall r :: r in w.registry ==> r.id in w.index && w.index[r.id] == r)
    && (forall id :: id in w.index ==> w.index[id] in w.registry && w.index[id].id == id)
  }

  function Find(records: seq<Record>, id: string): Option<Record> {
    if records == [] then None
    else if records[|records| - 1].id == id then Some(records[|records| - 1])
    else Find(records[..|records| - 1], id)
  }

  /** Selected sessions that are still there, still terminal and whose task is done. */
  predicate Prunable(w: World, id: string) {
    var r := Find(w.registry, id);
    r.Some? && IsTerminal(r.value) && id !in w.busy
  }

  function PlansFor(w: World, dir: string, cs: seq<Candidate>): seq<TranscriptPlan> {
    if cs == [] then []
    else
      var id := cs[|cs| - 1].id;
      PlansFor(w, dir, cs[..|cs| - 1])
      + (if Prunable(w, id) then [ClassifyTranscriptPaths(Find(w.registry, id).value, dir)] else [])
  }

  function Selected(w: World, c: Call): seq<Candidate> { SelectExpired(w.registry, c.cutoff, c.keep).expired }

  function Plans(w: World, c: Call): seq<TranscriptPlan> { PlansFor(w, c.dir, Selected(w, c)) }

  function Sweep(w: World, c: Call): SweptAll { SweepAll(w.files, Plans(w, c), true, c.trouble) }

  /** The sessions whose transcripts the sweep dealt with. */
  function Removable(plans: seq<TranscriptPlan>, outcomes: map<string, Outcome>): set<string> {
    set p | p in plans && p.id in outcomes && !outcomes[p.id].failed :: p.id
  }

  function Cleared(w: World, c: Call): set<string> { Removable(Plans(w, c), Sweep(w, c).outcomes) }

  /** The sessions whose record leaves the index. */
  function Removed(w: World, c: Call, f: Fate): set<string> {
    if f == Applied(false) || f == CrashAfterIndex then Cleared(w, c) else {}
  }

  function FilesLeft(w: World, c: Call, f: Fate): Files {
    match f
    case CrashInSweep(k, j) =>
      var plans := Plans(w, c);
      if k >= |plans| then Sweep(w, c).files
      else
        var before := SweepAll(w.files, plans[..k], true, c.trouble).files;
        var paths := plans[k].deletable;
        SweepPaths(before, paths[..Min(j, |paths|)], true, c.trouble).files
    case _ => Sweep(w, c).files
  }

  function AfterRun(w: World, c: Call, f: Fate): World {
    var gone := Removed(w, c, f);
    World(if f == Applied(false) then Without(w.registry, gone) else w.registry, w.busy, w.index - gone, FilesLeft(w, c, f))
  }

  // ----- the manager

  /** What a caller is told: how many sessions were dealt with, which of them were pruned and which failed, and the bytes reclaimed. */
  datatype PruneResult = PruneResult(candidates: nat, removed: set<string>, failed: set<string>, bytes: nat, indexFailed: bool)

  function BytesOf(plans: seq<TranscriptPlan>, outcomes: map<string, Outcome>, ids: set<string>): nat {
    if plans == [] then 0
    else
      var id := plans[|plans| - 1].id;
      BytesOf(plans[..|plans| - 1], outcomes, ids) + (if id in ids && id in outcomes then outcomes[id].size else 0)
  }

  function PlanIds(plans: seq<TranscriptPlan>): set<string> { set p | p in plans :: p.id }

  /** The result of a run: a failed index write makes every session fail, and then nothing counts as reclaimed. */
  function ResultOf(plans: seq<TranscriptPlan>, outcomes: map<string, Outcome>, apply: bool, indexFailed: bool): PruneResult {
    var ids := PlanIds(plans);
    var cleared := Removable(plans, outcomes);
    if !apply then PruneResult(|plans|, {}, {}, BytesOf(plans, outcomes, ids), false)
    else if indexFailed then PruneResult(|plans|, {}, ids, 0, true)
    else PruneResult(|plans|, cleared, ids - cleared, BytesOf(plans, outcomes, cleared), false)
  }

  class SessionManager {
    const index: SessionIndex
    const disk: Disk
    var registry: seq<Record>
    var busy: set<string>

    constructor (index: SessionIndex, disk: Disk)
      ensures this.index == index && this.disk == disk && registry == [] && busy == {}
    {
      this.index, this.disk := index, disk;
      registry, busy := [], {};
    }

    ghost function View(): World
      reads this, index, disk
    {
      World(registry, busy, index.sessions, disk.files)
    }

    method BuildPlans(dir: string, expired: seq<Candidate>) returns (plans: seq<TranscriptPlan>)
      ensures plans == PlansFor(View(), dir, expired)
    {
      plans := [];
      for i := 0 to |expired|
        invariant plans == PlansFor(View(), dir, expired[..i])
      {
        assert expired[..i + 1][..i] == expired[..i];
        var managed := Find(registry, expired[i].id);
        if managed.None? {
          continue;
        }
        if !IsTerminal(managed.value) || expired[i].id in busy {
          continue;
        }
        plans := plans + [ClassifyTranscriptPaths(managed.value, dir)];
      }
      assert expired[..|expired|] == expired;
    }

    /** A preview changes nothing; an applied run removes from files, index and registry exactly what the run's description says. */
    method PruneSessions(dir: string, now: int, retention: int, keep: int, apply: bool, trouble: string -> Trouble, writeFails: bool)
      returns (r: Result<PruneResult, string>)
      modifies this, index, disk
      ensures keep < 0 ==> r.Err? && View() == old(View())
      ensures keep >= 0 ==> r.Ok?
      ensures keep >= 0 && !apply ==> View() == old(View())
      ensures keep >= 0 ==>
                var c := Call(dir, now - retention, keep, trouble); var plans := Plans(old(View()), c);
                r.value == ResultOf(plans, SweepAll(old(View()).files, plans, apply, trouble).outcomes, apply, r.value.indexFailed)
      ensures keep >= 0 && apply ==>
                var c := Call(dir, now - retention, keep, trouble);
                && View() == AfterRun(old(View()), c, Applied(r.value.indexFailed))
                && r.value.removed == Removed(old(View()), c, Applied(r.value.indexFailed))
                && (r.value.indexFailed ==> writeFails && Cleared(old(View()), c) != {})
    {
      hide PlansFor, SweepAll, Removable, SelectExpired;
      if keep < 0 {
        return Err("keep must be >= 0");
      }
      var selection := SelectExpiredSessions(registry, now, retention, keep);
      var plans := BuildPlans(dir, selection.value.expired);
      ghost var files := disk.files;
      var outcomes := disk.ExecuteTranscriptUnlinks(plans, apply, trouble);
      var failed := false;
      if apply {
        ghost var c := Call(dir, now - retention, keep, trouble);
        assert SweptAll(disk.files, outcomes) == Sweep(old(View()), c);
        var removable := Removable(plans, outcomes);
        failed := Finish(removable, writeFails);
        assert disk.files == FilesLeft(old(View()), c, Applied(failed));
        assert Removed(old(View()), c, Applied(failed)) == if failed then {} else removable;
        assert index.sessions == old(index.sessions) - (if failed then {} else removable);
      } else {
        PreviewKeepsFiles(files, plans, trouble);
      }
      r := Ok(ResultOf(plans, outcomes, apply, failed));
    }

    /** The records leave the index in one rewrite; only then the registry. */
    method Finish(removable: set<string>, writeFails: bool) returns (failed: bool)
      modifies this`registry, index
      ensures failed ==> writeFails && removable != {} && index.sessions == old(index.sessions) && registry == old(registry)
      ensures !failed ==> index.sessions == old(index.sessions) - removable && registry == Without(old(registry), removable)
    {
      var written := index.RemoveMany(removable, writeFails);
      if !written {
        return true;
      }
      registry := Without(registry, removable);
      failed := false;
    }
  }

  // ----- what leaves, and when

  lemma {:induction false} FindMeaning(records: seq<Record>, id: string)
    ensures Find(records, id).Some? ==> Find(records, id).value in records && Find(records, id).value.id == id
    ensures (exists r :: r in records && r.id == id) ==> Find(records, id).Some?
  {
    if records != [] {
      FindMeaning(records[..|records| - 1], id);
    }
  }

  lemma PlanNamesRecord(r: Record, dir: string)
    ensures ClassifyTranscriptPaths(r, dir).id == r.id
  {}

  /** The plans are for distinct, selected, terminal sessions whose task is done. */
  lemma {:induction false} PlansMeaning(w: World, dir: string, cs: seq<Candidate>)
    requires DistinctIds(cs)
    ensures DistinctPlans(PlansFor(w, dir, cs))
    ensures forall p :: p in PlansFor(w, dir, cs) ==>
              p.id in Ids(cs) && Prunable(w, p.id) && p == ClassifyTranscriptPaths(Find(w.registry, p.id).value, dir)
  {
    hide ClassifyTranscriptPaths;
    if cs != [] {
      var n := |cs| - 1;
      PlansMeaning(w, dir, cs[..n]);
      FindMeaning(w.registry, cs[n].id);
      assert Ids(cs) == Ids(cs[..n]) + {cs[n].id};
      if Prunable(w, cs[n].id) {
        PlanNamesRecord(Find(w.registry, cs[n].id).value, dir);
      }
      assert cs[n].id !in Ids(cs[..n]);
    }
  }

  lemma SelectedDistinct(w: World, c: Call)
    requires UniqueIds(w.registry)
    ensures DistinctIds(Selected(w, c))
  {
    TailMeaning(w.registry, c.cutoff);
    ExpiredOfTail(w.registry, c.cutoff, c.keep);
  }

  /** Nothing but selected sessions is ever removed: no live one, none whose task still runs. */
  lemma OnlyExpiredLeave(w: World, c: Call, f: Fate)
    requires UniqueIds(w.registry)
    ensures Removed(w, c, f) <= Ids(Selected(w, c))
    ensures forall id :: id in Removed(w, c, f) ==> id !in w.busy && exists r :: r in w.registry && r.id == id && IsTerminal(r)
    ensures forall r :: r in w.registry && !IsTerminal(r) ==> r.id !in Removed(w, c, f)
  {
    SelectedDistinct(w, c);
    PlansMeaning(w, c.dir, Selected(w, c));
    forall id | id in Removed(w, c, f)
      ensures id in Ids(Selected(w, c)) && id !in w.busy && exists r :: r in w.registry && r.id == id && IsTerminal(r)
    {
      var p :| p in Plans(w, c) && p.id == id;
      FindMeaning(w.registry, id);
    }
    forall r, x | r in w.registry && x in w.registry && r.id == x.id ensures r == x {
      SameIdSameRecord(w.registry, r, x);
    }
  }

  /**
   * When a record has left the index, whatever happens then, each of its recorded
   * transcripts is absent or was reported: as not managed by the plan, or as preserved by
   * the sweep.
   */
  lemma RecordsLeaveClean(w: World, c: Call, f: Fate, r: Record, path: string)
    requires UniqueIds(w.registry) && r in w.registry && r.id in Removed(w, c, f)
    requires path != "" && (r.jsonl == Some(path) || r.markdown == Some(path))
    ensures var plan := ClassifyTranscriptPaths(r, c.dir);
            || path !in FilesLeft(w, c, f)
            || Reported(Sweep(w, c).outcomes[r.id], path)
            || (exists k :: 0 <= k < |plan.preserved| && plan.preserved[k].path == path)
  {
    SelectedDistinct(w, c);
    PlansMeaning(w, c.dir, Selected(w, c));
    var p :| p in Plans(w, c) && p.id == r.id && p.id in Sweep(w, c).outcomes && !Sweep(w, c).outcomes[p.id].failed;
    FindMeaning(w.registry, r.id);
    SameIdSameRecord(w.registry, r, Find(w.registry, r.id).value);
    EveryPathClassified(r, c.dir);
    if path in p.deletable {
      var k :| 0 <= k < |Plans(w, c)| && Plans(w, c)[k] == p;
      SweepAllLeavesNothing(w.files, Plans(w, c), c.trouble, k, path);
    }
  }

  lemma GoneWasPlanned(w: World, c: Call, f: Fate, path: string) returns (k: nat)
    requires path in w.files && path !in FilesLeft(w, c, f)
    ensures w.files[path].Regular? && k < |Plans(w, c)| && path in Plans(w, c)[k].deletable
  {
    var plans := Plans(w, c);
    SweepAllRemoves(w.files, plans, c.trouble);
    if f.CrashInSweep? && f.plans < |plans| {
      SweepAllRemoves(w.files, plans[..f.plans], c.trouble);
      var before := SweepAll(w.files, plans[..f.plans], true, c.trouble).files;
      var paths := plans[f.plans].deletable;
      SweepRemoves(before, paths[..Min(f.paths, |paths|)], c.trouble);
      if path in before {
        k := f.plans;
      } else {
        k :| k < f.plans && path in plans[..f.plans][k].deletable;
      }
    } else {
      k :| k < |plans| && path in plans[k].deletable;
    }
  }

  /** However a run ends, a file that is gone was a regular file owned by a selected session, and by no other. */
  lemma OnlyOwnFilesGo(w: World, c: Call, f: Fate, path: string)
    requires UniqueIds(w.registry) && path in w.files && path !in FilesLeft(w, c, f)
    ensures w.files[path].Regular?
    ensures exists id :: id in Ids(Selected(w, c)) && Owns(c.dir, id, path) && forall x :: Owns(c.dir, x, path) ==> x == id
  {
    SelectedDistinct(w, c);
    PlansMeaning(w, c.dir, Selected(w, c));
    var k := GoneWasPlanned(w, c, f, path);
    var p := Plans(w, c)[k];
    assert p in Plans(w, c);
    FindMeaning(w.registry, p.id);
    EveryPathClassified(Find(w.registry, p.id).value, c.dir);
    forall x | Owns(c.dir, x, path) ensures x == p.id {
      OneOwner(c.dir, x, p.id, path);
    }
  }

  // ----- convergence

  /** The registry a new daemon builds from the index, in any order. */
  ghost predicate Loads(again: seq<Record>, index: map<string, Record>, time: int) {
    && UniqueIds(again)
    && (forall id :: id in index ==> Later(index[id], Some(time)) in again)
    && (forall x :: x in again ==> x.id in index && x == Later(index[x.id], Some(time)))
  }

  /** The sessions that a later prune finds: those of the same daemon, or of one started afterwards. */
  ghost predicate Finds(again: seq<Record>, after: World, f: Fate, restart: Option<int>) {
    if restart.None? then f.Applied? && again == after.registry else Loads(again, after.index, restart.value)
  }

  lemma LoadsFollows(w: World, gone: set<string>, again: seq<Record>, time: int)
    requires Synced(w) && Loads(again, w.index - gone, time)
    ensures Follows(again, w.registry, gone, Some(time))
  {
    forall r | r in w.registry && r.id !in gone ensures Later(r, Some(time)) in again {
      assert r.id in w.index - gone;
    }
    forall x | x in again ensures exists r :: r in w.registry && r.id !in gone && x == Later(r, Some(time)) {
      assert x.id in w.index - gone;
      assert w.index[x.id] in w.registry && w.index[x.id].id == x.id;
    }
  }

  lemma {:induction false} WithoutNothing(records: seq<Record>)
    ensures Without(records, {}) == records
  {
    if records != [] {
      WithoutNothing(records[..|records| - 1]);
    }
  }

  lemma FindsFollows(w: World, c: Call, f: Fate, again: seq<Record>, restart: Option<int>)
    requires Synced(w) && Finds(again, AfterRun(w, c, f), f, restart)
    ensures Follows(again, w.registry, Removed(w, c, f), restart)
  {
    var gone := Removed(w, c, f);
    if restart.None? {
      WithoutFollows(w.registry, gone);
      WithoutNothing(w.registry);
    } else {
      LoadsFollows(w, gone, again, restart.value);
    }
  }

  /**
   * Pruning converges: however a run ends, and whichever daemon looks next, selecting again
   * with the same cutoff and keep count gives exactly what was selected and is not yet
   * removed, if and only if no session was live at a restart in between, or the keep count
   * was already used up by newer sessions, or nothing was old, or it covers all of them.
   */
  lemma PruneConverges(w: World, c: Call, f: Fate, again: seq<Record>, restart: Option<int>)
    requires Synced(w) && Finds(again, AfterRun(w, c, f), f, restart) && (restart.Some? ==> restart.value > c.cutoff)
    ensures var m := |NewerIds(w.registry, c.cutoff)|; var q := |EndedByRestart(w.registry, restart)|;
            var t := Tail(w.registry, c.cutoff);
            SelectExpired(again, c.cutoff, c.keep).expired == Remaining(Selected(w, c), Removed(w, c, f))
            <==> q == 0 || c.keep <= m || t == [] || c.keep >= m + q + |t|
  {
    OnlyExpiredLeave(w, c, f);
    FindsFollows(w, c, f, again, restart);
    ReselectIsRest(again, w.registry, Removed(w, c, f), restart, c.cutoff, c.keep);
  }

  // ----- a restart that expires more

  const ENDED := Record("a", Some(Status.Done), Some(5), None, None, None)
  const RUNNING := Record("b", Some(Status.Running), None, None, None, None)
  const STOPPED_BY_RESTART := Record("b", Some(Status.Interrupted), Some(20), Some(20), None, None)

  function SmallWorld(): World {
    World([ENDED, RUNNING], {}, map["a" := ENDED, "b" := RUNNING], map[])
  }

  lemma SmallWorldSynced()
    ensures Synced(SmallWorld())
  {
    assert "a" != "b";
  }

  lemma SmallWorldCandidates()
    ensures Candidates([ENDED, RUNNING]) == [CandidateOf(ENDED)]
  {
    var records := [ENDED, RUNNING];
    assert records[..1] == [ENDED] && records[..1][..0] == [];
    assert Candidates([ENDED]) == [CandidateOf(ENDED)];
  }

  lemma SmallWorldTail()
    ensures Tail([ENDED, RUNNING], 10) == [CandidateOf(ENDED)]
  {
    var cs := [CandidateOf(ENDED)];
    SmallWorldCandidates();
    hide Candidates;
    assert cs[..0] == [] && cs[0..] == cs;
    assert NewestFirst([]) == [] && NewestFirst(cs) == Insert([], cs[0]) == cs;
    assert Newer([], 10) == 0 && Newer(cs, 10) == 0;
  }

  lemma SmallWorldIds()
    ensures NewerIds([ENDED, RUNNING], 10) == {} && EndedByRestart([ENDED, RUNNING], Some(20)) == {"b"}
  {
    var records := [ENDED, RUNNING];
    assert forall r :: r in records <==> r == ENDED || r == RUNNING;
    assert LiveIds(records) == {"b"};
  }

  /**
   * An ended session that a keep count of one had saved: the run crashes before it removes
   * anything, the restart ends the live session, that takes the one kept place, and the
   * session expires although nothing had been selected before.
   */
  lemma RestartExpiresMore()
    ensures var c := Call("", 10, 1, (p: string) => Fine);
            var again := [ENDED, STOPPED_BY_RESTART];
            && Synced(SmallWorld()) && Finds(again, AfterRun(SmallWorld(), c, CrashBeforeIndex), CrashBeforeIndex, Some(20))
            && Selected(SmallWorld(), c) == []
            && SelectExpired(again, c.cutoff, c.keep).expired == [CandidateOf(ENDED)]
  {
    var c := Call("", 10, 1, (p: string) => Fine);
    var again := [ENDED, STOPPED_BY_RESTART];
    var w := SmallWorld();
    SmallWorldLoads(c);
    SmallWorldSynced();
    FindsFollows(w, c, CrashBeforeIndex, again, Some(20));
    hide Synced, Finds, Follows, UniqueIds, FilesLeft, SelectExpired;
    SmallWorldReselects(c, again);
  }

  lemma SmallWorldLoads(c: Call)
    ensures Finds([ENDED, STOPPED_BY_RESTART], AfterRun(SmallWorld(), c, CrashBeforeIndex), CrashBeforeIndex, Some(20))
  {
    var w := SmallWorld();
    hide FilesLeft;
    assert "a" != "b" && w.index - {} == w.index;
    assert Loads([ENDED, STOPPED_BY_RESTART], w.index, 20);
  }

  lemma SmallWorldReselects(c: Call, again: seq<Record>)
    requires c.cutoff == 10 && c.keep == 1 && Follows(again, SmallWorld().registry, {}, Some(20))
    ensures Selected(SmallWorld(), c) == [] && SelectExpired(again, 10, 1).expired == [CandidateOf(ENDED)]
  {
    var w := SmallWorld();
    SmallWorldTail();
    SmallWorldIds();
    SmallWorldSynced();
    assert UniqueIds(w.registry);
    hide Synced, SelectExpired;
    ExpiredOfTail(w.registry, 10, 1);
    var t := [CandidateOf(ENDED)];
    assert t[1..] == [] && Selected(w, c) == [];
    ReselectIsRest(again, w.registry, {}, Some(20), 10, 1);
    NothingGone(t);
    assert t[0..] == t;
  }

  lemma {:induction false} NothingGone(cs: seq<Candidate>)
    ensures Remaining(cs, {}) == cs
  {
    if cs != [] {
      NothingGone(cs[..|cs| - 1]);
    }
  }
}
