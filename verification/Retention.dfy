/** Which sessions retention expires, and which transcript files are its own (agent_collab/retention.py). */
module Retention {
  import opened Common
  import opened Events

  /**
   * A session's index record. Timestamps are the instants that the stored texts read as,
   * None when missing or unusable; a status is None when its text is no session status.
   */
  datatype Record = Record(
    id: string, status: Option<Status>, endedAt: Option<int>, updatedAt: Option<int>,
    jsonl: Option<string>, markdown: Option<string>)

  datatype Candidate = Candidate(id: string, status: Status, at: int)

  datatype Selection = Selection(expired: seq<Candidate>, kept: seq<Candidate>, skipped: seq<string>)

  predicate IsTerminal(r: Record) { r.status.Some? && Terminal(r.status.value) }

  function EffectiveTimestamp(r: Record): Option<int> { if r.endedAt.Some? then r.endedAt else r.updatedAt }

  predicate IsCandidate(r: Record) { IsTerminal(r) && EffectiveTimestamp(r).Some? }

  function CandidateOf(r: Record): Candidate
    requires IsCandidate(r)
  {
    Candidate(r.id, r.status.value, EffectiveTimestamp(r).value)
  }

  function Candidates(records: seq<Record>): seq<Candidate> {
    if records == [] then []
    else
      var last := records[|records| - 1];
      Candidates(records[..|records| - 1]) + (if IsCandidate(last) then [CandidateOf(last)] else [])
  }

  function SkippedIds(records: seq<Record>): seq<string> {
    if records == [] then []
    else
      var last := records[|records| - 1];
      SkippedIds(records[..|records| - 1]) + (if IsTerminal(last) && !IsCandidate(last) then [last.id] else [])
  }

  // ----- newest first

  /** The order of texts by their characters. */
  predicate Before(s: string, t: string)
    decreases |s|
  {
    t != [] && (s == [] || s[0] < t[0] || (s[0] == t[0] && Before(s[1..], t[1..])))
  }

  predicate Ahead(a: Candidate, b: Candidate) { a.at > b.at || (a.at == b.at && Before(b.id, a.id)) }

  function Insert(s: seq<Candidate>, c: Candidate): seq<Candidate> {
    if s == [] then [c] else if Ahead(c, s[0]) then [c] + s else [s[0]] + Insert(s[1..], c)
  }

  /** The stable sort by time, then id, newest first. */
  function NewestFirst(s: seq<Candidate>): seq<Candidate> {
    if s == [] then [] else Insert(NewestFirst(s[..|s| - 1]), s[|s| - 1])
  }

  predicate Ordered(s: seq<Candidate>) { forall i, j :: 0 <= i < j < |s| ==> Ahead(s[i], s[j]) }

  predicate UniqueIds(records: seq<Record>) {
    forall i, j :: 0 <= i < j < |records| ==> records[i].id != records[j].id
  }

  lemma {:induction false} BeforeOrder(s: string, t: string, u: string)
    ensures s != t ==> Before(s, t) || Before(t, s)
    ensures !(Before(s, t) && Before(t, s))
    ensures Before(s, t) && Before(t, u) ==> Before(s, u)
    decreases |s| + |t| + |u|
  {
    if s != [] && t != [] {
      BeforeOrder(s[1..], t[1..], if u != [] then u[1..] else u);
      if s[0] == t[0] && s[1..] == t[1..] {
        assert s == [s[0]] + s[1..] && t == [t[0]] + t[1..];
      }
    }
  }

  lemma AheadOrder(a: Candidate, b: Candidate, c: Candidate)
    ensures a.id != b.id ==> Ahead(a, b) || Ahead(b, a)
    ensures !(Ahead(a, b) && Ahead(b, a))
    ensures Ahead(a, b) && Ahead(b, c) ==> Ahead(a, c)
  {
    BeforeOrder(a.id, b.id, a.id);
    BeforeOrder(c.id, b.id, a.id);
  }

  lemma {:induction false} InsertOrders(s: seq<Candidate>, c: Candidate)
    requires Ordered(s) && forall x :: x in s ==> x.id != c.id
    ensures Ordered(Insert(s, c)) && |Insert(s, c)| == |s| + 1
    ensures forall x :: x in Insert(s, c) <==> x in s || x == c
  {
    if s != [] {
      assert s[0] in s;
      AheadOrder(c, s[0], c);
      if Ahead(c, s[0]) {
        forall k | 0 <= k < |s| ensures Ahead(c, s[k]) {
          AheadOrder(c, s[0], s[k]);
        }
      } else {
        InsertOrders(s[1..], c);
        var t := Insert(s[1..], c);
        forall k | 0 <= k < |t| ensures Ahead(s[0], t[k]) {
          assert t[k] in t;
        }
      }
    }
  }

  predicate DistinctIds(cs: seq<Candidate>) { forall i, j :: 0 <= i < j < |cs| ==> cs[i].id != cs[j].id }

  /** The sort orders, and neither loses nor adds a candidate. */
  lemma {:induction false} SortOrders(cs: seq<Candidate>)
    requires DistinctIds(cs)
    ensures Ordered(NewestFirst(cs)) && |NewestFirst(cs)| == |cs|
    ensures forall x :: x in NewestFirst(cs) <==> x in cs
  {
    if cs != [] {
      var front := cs[..|cs| - 1];
      SortOrders(front);
      InsertOrders(NewestFirst(front), cs[|cs| - 1]);
    }
  }

  lemma {:induction false} CandidatesMeaning(records: seq<Record>)
    requires UniqueIds(records)
    ensures forall x :: x in Candidates(records) ==> exists k :: 0 <= k < |records| && IsCandidate(records[k]) && x == CandidateOf(records[k])
    ensures forall k :: 0 <= k < |records| && IsCandidate(records[k]) ==> CandidateOf(records[k]) in Candidates(records)
  {
    if records != [] {
      CandidatesMeaning(records[..|records| - 1]);
    }
  }

  lemma {:induction false} CandidatesDistinct(records: seq<Record>)
    requires UniqueIds(records)
    ensures DistinctIds(Candidates(records))
  {
    if records != [] {
      var front := records[..|records| - 1];
      CandidatesDistinct(front);
      CandidatesMeaning(front);
      forall x | x in Candidates(front) ensures x.id != records[|records| - 1].id {
        var k :| 0 <= k < |front| && IsCandidate(front[k]) && x == CandidateOf(front[k]);
      }
    }
  }

  lemma TailOf(s: seq<Candidate>)
    requires s != [] && Ordered(s)
    ensures forall x :: x in s[1..] <==> x in s && x != s[0]
  {
    assert s == [s[0]] + s[1..];
    AheadOrder(s[0], s[0], s[0]);
  }

  /** An ordered list is determined by what is in it. */
  lemma {:induction false} OneOrder(s: seq<Candidate>, t: seq<Candidate>)
    requires Ordered(s) && Ordered(t) && forall x :: x in s <==> x in t
    ensures s == t
  {
    assert (s != [] ==> s[0] in s) && (t != [] ==> t[0] in t);
    if s != [] {
      AheadOrder(s[0], t[0], s[0]);
      TailOf(s);
      TailOf(t);
      OneOrder(s[1..], t[1..]);
    }
  }

  // ----- the selection

  function Ids(cs: seq<Candidate>): set<string> { set c | c in cs :: c.id }

  function Min(a: nat, b: nat): nat { if a <= b then a else b }

  function Max(a: nat, b: nat): nat { if a >= b then a else b }

  function Filter(cs: seq<Candidate>, keeps: Candidate -> bool): seq<Candidate> {
    if cs == [] then []
    else Filter(cs[..|cs| - 1], keeps) + (if keeps(cs[|cs| - 1]) then [cs[|cs| - 1]] else [])
  }

  function Expired(cutoff: int, protected: set<string>): Candidate -> bool {
    (c: Candidate) => c.at <= cutoff && c.id !in protected
  }

  function KeptByCount(cutoff: int, protected: set<string>): Candidate -> bool {
    (c: Candidate) => c.at <= cutoff && c.id in protected
  }

  function Sorted(records: seq<Record>): seq<Candidate> { NewestFirst(Candidates(records)) }

  /** Sort, protect the first `keep`, and divide what is not newer than the cutoff. */
  function SelectExpired(records: seq<Record>, cutoff: int, keep: nat): Selection {
    var sorted := Sorted(records);
    var protected := Ids(sorted[..Min(keep, |sorted|)]);
    Selection(Filter(sorted, Expired(cutoff, protected)), Filter(sorted, KeptByCount(cutoff, protected)), SkippedIds(records))
  }

  method CollectTerminal(records: seq<Record>) returns (terminal: seq<Candidate>, skipped: seq<string>)
    ensures terminal == Candidates(records) && skipped == SkippedIds(records)
  {
    terminal, skipped := [], [];
    for i := 0 to |records|
      invariant terminal == Candidates(records[..i]) && skipped == SkippedIds(records[..i])
    {
      assert records[..i + 1][..i] == records[..i];
      var record := records[i];
      if !IsTerminal(record) {
        continue;
      }
      var at := EffectiveTimestamp(record);
      if at.None? {
        skipped := skipped + [record.id];
        continue;
      }
      terminal := terminal + [Candidate(record.id, record.status.value, at.value)];
    }
    assert records[..|records|] == records;
  }

  lemma OneMoreFiltered(cs: seq<Candidate>, i: nat, keeps: Candidate -> bool)
    requires i < |cs|
    ensures Filter(cs[..i + 1], keeps) == Filter(cs[..i], keeps) + (if keeps(cs[i]) then [cs[i]] else [])
  {
    assert cs[..i + 1][..i] == cs[..i];
  }

  method SelectExpiredSessions(records: seq<Record>, now: int, retention: int, keep: int) returns (r: Result<Selection, string>)
    ensures keep < 0 ==> r == Err("keep must be >= 0")
    ensures keep >= 0 ==> r == Ok(SelectExpired(records, now - retention, keep))
  {
    if keep < 0 {
      return Err("keep must be >= 0");
    }
    hide Candidates, SkippedIds, NewestFirst;
    var cutoff := now - retention;
    var terminal, skipped := CollectTerminal(records);
    terminal := NewestFirst(terminal);
    var protected := set c | c in terminal[..Min(keep, |terminal|)] :: c.id;
    var expired, kept := [], [];
    for i := 0 to |terminal|
      invariant expired == Filter(terminal[..i], Expired(cutoff, protected))
      invariant kept == Filter(terminal[..i], KeptByCount(cutoff, protected))
    {
      hide Filter;
      OneMoreFiltered(terminal, i, Expired(cutoff, protected));
      OneMoreFiltered(terminal, i, KeptByCount(cutoff, protected));
      var candidate := terminal[i];
      if candidate.at > cutoff {
        continue;
      }
      if candidate.id in protected {
        kept := kept + [candidate];
      } else {
        expired := expired + [candidate];
      }
    }
    assert terminal[..|terminal|] == terminal;
    r := Ok(Selection(expired, kept, skipped));
  }

  /** How many of an ordered list are newer than the cutoff: they come first. */
  function Newer(cs: seq<Candidate>, cutoff: int): (m: nat)
    ensures m <= |cs|
  {
    if cs == [] then 0 else Newer(cs[..|cs| - 1], cutoff) + (if cs[|cs| - 1].at > cutoff then 1 else 0)
  }

  lemma {:induction false} NewerComeFirst(s: seq<Candidate>, cutoff: int)
    requires Ordered(s)
    ensures forall i :: 0 <= i < |s| ==> (s[i].at > cutoff <==> i < Newer(s, cutoff))
  {
    if s != [] {
      NewerComeFirst(s[..|s| - 1], cutoff);
    }
  }

  lemma {:induction false} FilterIsSlice(s: seq<Candidate>, keeps: Candidate -> bool, lo: nat, hi: nat)
    requires lo <= hi <= |s|
    requires forall i :: 0 <= i < |s| ==> (keeps(s[i]) <==> lo <= i < hi)
    ensures Filter(s, keeps) == s[lo..hi]
    decreases |s|
  {
    if s != [] {
      var n := |s| - 1;
      var front := s[..n];
      if hi <= n {
        FilterIsSlice(front, keeps, lo, hi);
        assert front[lo..hi] == s[lo..hi];
      } else {
        var start := Min(lo, n);
        FilterIsSlice(front, keeps, start, n);
        assert front[start..n] + (if lo <= n then [s[n]] else []) == s[lo..hi];
      }
    }
  }

  /** Where the expired part of the sorted list begins. */
  function ExpiredFrom(records: seq<Record>, cutoff: int, keep: nat): (k: nat)
    ensures k <= |Sorted(records)|
  {
    var n := |Sorted(records)|;
    Max(Min(keep, n), Newer(Sorted(records), cutoff))
  }

  lemma ProtectedArePrefix(s: seq<Candidate>, k: nat, i: nat)
    requires DistinctIds(s) && k <= |s| && i < |s|
    ensures s[i].id in Ids(s[..k]) <==> i < k
  {
    if i < k {
      assert s[..k][i] in s[..k];
    }
  }

  lemma SortedMeaning(records: seq<Record>)
    requires UniqueIds(records)
    ensures Ordered(Sorted(records)) && DistinctIds(Sorted(records))
    ensures forall x :: x in Sorted(records) <==> x in Candidates(records)
  {
    CandidatesDistinct(records);
    SortOrders(Candidates(records));
    var s := Sorted(records);
    forall i, j | 0 <= i < j < |s| ensures s[i].id != s[j].id {
      if s[i].id == s[j].id {
        var cs := Candidates(records);
        assert s[i] in s && s[j] in s;
        var k, l :| 0 <= k < |cs| && cs[k] == s[i] && 0 <= l < |cs| && cs[l] == s[j];
        AheadOrder(s[i], s[j], s[i]);
      }
    }
  }

  /**
   * With unique ids, what expires is the tail of the newest-first list from the larger of
   * the keep count and the number newer than the cutoff; what the keep count alone saves
   * is the part between the two.
   */
  lemma ExpiredIsTail(records: seq<Record>, cutoff: int, keep: nat)
    requires UniqueIds(records)
    ensures var s := Sorted(records); var m := Newer(s, cutoff); var sel := SelectExpired(records, cutoff, keep);
            && sel.expired == s[ExpiredFrom(records, cutoff, keep)..]
            && sel.kept == (if Min(keep, |s|) > m then s[m..Min(keep, |s|)] else [])
  {
    var s := Sorted(records);
    var n := Min(keep, |s|);
    var m := Newer(s, cutoff);
    SortedMeaning(records);
    NewerComeFirst(s, cutoff);
    forall i | 0 <= i < |s| ensures s[i].id in Ids(s[..n]) <==> i < n {
      ProtectedArePrefix(s, n, i);
    }
    FilterIsSlice(s, Expired(cutoff, Ids(s[..n])), Max(n, m), |s|);
    FilterIsSlice(s, KeptByCount(cutoff, Ids(s[..n])), Min(m, n), n);
  }

  lemma SplitOrdered(s: seq<Candidate>, k: nat, x: Candidate, y: Candidate)
    requires Ordered(s) && k <= |s| && x in s && x !in s[k..] && y in s[k..]
    ensures Ahead(x, y)
  {
    forall i | k <= i < |s| ensures s[i] in s[k..] {
      assert s[k..][i - k] == s[i];
    }
    var i :| 0 <= i < |s| && s[i] == x;
    var j :| 0 <= j < |s| - k && s[k..][j] == y;
    assert s[j + k] == y;
  }

  /** At least `keep` timestamped terminal sessions survive if there are that many, and each survivor is ahead of every expired one. */
  lemma NewestSurvive(records: seq<Record>, cutoff: int, keep: nat)
    requires UniqueIds(records)
    ensures var s := Sorted(records); var e := SelectExpired(records, cutoff, keep).expired;
            && |Candidates(records)| == |s| && |s| - |e| >= Min(keep, |s|)
            && forall x, y :: x in s && x !in e && y in e ==> Ahead(x, y)
  {
    ExpiredIsTail(records, cutoff, keep);
    CandidatesDistinct(records);
    SortOrders(Candidates(records));
    var s := Sorted(records);
    var k := ExpiredFrom(records, cutoff, keep);
    forall x, y | x in s && x !in s[k..] && y in s[k..] ensures Ahead(x, y) {
      SplitOrdered(s, k, x, y);
    }
  }

  // ----- selecting again

  function NewerIds(records: seq<Record>, cutoff: int): set<string> {
    set r | r in records && IsCandidate(r) && CandidateOf(r).at > cutoff :: r.id
  }

  function LiveIds(records: seq<Record>): set<string> {
    set r | r in records && r.status.Some? && Live(r.status.value) :: r.id
  }

  /** The part of the newest-first list that is not newer than the cutoff. */
  function Tail(records: seq<Record>, cutoff: int): seq<Candidate> {
    Sorted(records)[Newer(Sorted(records), cutoff)..]
  }

  /** How much of that part the keep count saves when m candidates are newer. */
  function Saved(keep: nat, m: nat, t: nat): (j: nat)
    ensures j <= t
  {
    if keep <= m then 0 else Min(keep - m, t)
  }

  lemma {:induction false} IdsCount(cs: seq<Candidate>)
    requires DistinctIds(cs)
    ensures |Ids(cs)| == |cs|
  {
    if cs != [] {
      var n := |cs| - 1;
      IdsCount(cs[..n]);
      assert Ids(cs) == Ids(cs[..n]) + {cs[n].id};
    }
  }

  lemma InCandidates(records: seq<Record>, x: Candidate)
    requires UniqueIds(records)
    ensures x in Candidates(records) <==> exists r :: r in records && IsCandidate(r) && x == CandidateOf(r)
  {
    CandidatesMeaning(records);
    if r :| r in records && IsCandidate(r) && x == CandidateOf(r) {
      var k :| 0 <= k < |records| && records[k] == r;
    }
  }

  lemma NewerCount(records: seq<Record>, cutoff: int)
    requires UniqueIds(records)
    ensures Newer(Sorted(records), cutoff) == |NewerIds(records, cutoff)|
  {
    SortedMeaning(records);
    var s := Sorted(records);
    var m := Newer(s, cutoff);
    NewerComeFirst(s, cutoff);
    IdsCount(s[..m]);
    forall id ensures id in Ids(s[..m]) <==> id in NewerIds(records, cutoff) {
      if id in Ids(s[..m]) {
        var i :| 0 <= i < m && s[i].id == id;
        assert s[i] in s;
        InCandidates(records, s[i]);
      }
      if id in NewerIds(records, cutoff) {
        var r :| r in records && IsCandidate(r) && CandidateOf(r).at > cutoff && r.id == id;
        InCandidates(records, CandidateOf(r));
        var i :| 0 <= i < |s| && s[i] == CandidateOf(r);
        assert s[..m][i] in s[..m];
      }
    }
    assert Ids(s[..m]) == NewerIds(records, cutoff);
  }

  lemma TailMeaning(records: seq<Record>, cutoff: int)
    requires UniqueIds(records)
    ensures Ordered(Tail(records, cutoff)) && DistinctIds(Tail(records, cutoff))
    ensures forall x :: x in Tail(records, cutoff) <==> x in Candidates(records) && x.at <= cutoff
  {
    SortedMeaning(records);
    var s := Sorted(records);
    var m := Newer(s, cutoff);
    NewerComeFirst(s, cutoff);
    forall x ensures x in s[m..] <==> x in s && x.at <= cutoff {
      if x in s && x.at <= cutoff {
        var i :| 0 <= i < |s| && s[i] == x;
        assert s[m..][i - m] == x;
      }
    }
  }

  lemma ExpiredOfTail(records: seq<Record>, cutoff: int, keep: nat)
    requires UniqueIds(records)
    ensures var t := Tail(records, cutoff);
            SelectExpired(records, cutoff, keep).expired == t[Saved(keep, |NewerIds(records, cutoff)|, |t|)..]
  {
    ExpiredIsTail(records, cutoff, keep);
    NewerCount(records, cutoff);
    hide SelectExpired, NewerIds, UniqueIds, Sorted, Newer;
    var s, m := Sorted(records), Newer(Sorted(records), cutoff);
    assert ExpiredFrom(records, cutoff, keep) == m + Saved(keep, m, |s| - m);
  }

  function NotIn(gone: set<string>): Candidate -> bool { (c: Candidate) => c.id !in gone }

  /** A list without the candidates that are gone. */
  function Remaining(cs: seq<Candidate>, gone: set<string>): seq<Candidate> { Filter(cs, NotIn(gone)) }

  lemma {:induction false} RemainingMeaning(cs: seq<Candidate>, gone: set<string>)
    requires Ordered(cs)
    ensures Ordered(Remaining(cs, gone)) && |Remaining(cs, gone)| <= |cs|
    ensures forall x :: x in Remaining(cs, gone) <==> x in cs && x.id !in gone
  {
    if cs != [] {
      var front := cs[..|cs| - 1];
      RemainingMeaning(front, gone);
      forall x | x in Remaining(front, gone) ensures Ahead(x, cs[|cs| - 1]) {
        var i :| 0 <= i < |front| && front[i] == x;
      }
    }
  }

  lemma {:induction false} RemainingSplits(cs: seq<Candidate>, j: nat, gone: set<string>)
    requires j <= |cs| && forall i :: 0 <= i < j ==> cs[i].id !in gone
    ensures Remaining(cs, gone) == cs[..j] + Remaining(cs[j..], gone)
    decreases |cs|
  {
    if cs != [] {
      var n := |cs| - 1;
      if j <= n {
        RemainingSplits(cs[..n], j, gone);
        assert cs[j..][..n - j] == cs[..n][j..];
      } else {
        RemainingSplits(cs[..n], n, gone);
        assert cs[..n][..n] == cs[..n];
      }
    }
  }

  function Without(records: seq<Record>, gone: set<string>): seq<Record> {
    if records == [] then []
    else
      var last := records[|records| - 1];
      Without(records[..|records| - 1], gone) + (if last.id in gone then [] else [last])
  }

  /** A daemon restart ends every live session as interrupted, at the time of the restart. */
  function Later(r: Record, restart: Option<int>): Record {
    if restart.Some? && r.status.Some? && Live(r.status.value)
    then r.(status := Some(Interrupted), endedAt := restart, updatedAt := restart)
    else r
  }

  /** The sessions there are, in any order, once some were pruned and perhaps the daemon was restarted. */
  ghost predicate Follows(again: seq<Record>, records: seq<Record>, gone: set<string>, restart: Option<int>) {
    && UniqueIds(again)
    && (forall r :: r in records && r.id !in gone ==> Later(r, restart) in again)
    && (forall x :: x in again ==> exists r :: r in records && r.id !in gone && x == Later(r, restart))
  }

  lemma SameIdSameRecord(records: seq<Record>, r: Record, x: Record)
    requires UniqueIds(records) && r in records && x in records && r.id == x.id
    ensures r == x
  {
    var i, j :| 0 <= i < |records| && records[i] == r && 0 <= j < |records| && records[j] == x;
  }

  lemma GoneAreOld(records: seq<Record>, cutoff: int, gone: set<string>, r: Record)
    requires UniqueIds(records) && gone <= Ids(Tail(records, cutoff)) && r in records && r.id in gone
    ensures IsCandidate(r) && CandidateOf(r).at <= cutoff
  {
    TailMeaning(records, cutoff);
    var c :| c in Tail(records, cutoff) && c.id == r.id;
    InCandidates(records, c);
    var x :| x in records && IsCandidate(x) && c == CandidateOf(x);
    SameIdSameRecord(records, r, x);
  }

  /** A candidate not newer than the cutoff is the same before and after. */
  lemma OldCandidateFollows(again: seq<Record>, records: seq<Record>, gone: set<string>, restart: Option<int>, cutoff: int, c: Candidate)
    requires UniqueIds(records) && Follows(again, records, gone, restart) && (restart.Some? ==> restart.value > cutoff)
    requires c.at <= cutoff
    ensures c in Candidates(again) <==> c in Candidates(records) && c.id !in gone
  {
    InCandidates(records, c);
    InCandidates(again, c);
    hide Candidates, UniqueIds;
    if c in Candidates(again) {
      var x :| x in again && IsCandidate(x) && c == CandidateOf(x);
      var r :| r in records && r.id !in gone && x == Later(r, restart);
      assert x == r;
    }
    if c in Candidates(records) && c.id !in gone {
      var r :| r in records && IsCandidate(r) && c == CandidateOf(r);
      assert Later(r, restart) == r;
    }
  }

  lemma TailFollows(again: seq<Record>, records: seq<Record>, gone: set<string>, restart: Option<int>, cutoff: int)
    requires UniqueIds(records) && Follows(again, records, gone, restart) && (restart.Some? ==> restart.value > cutoff)
    ensures Tail(again, cutoff) == Remaining(Tail(records, cutoff), gone)
  {
    TailMeaning(records, cutoff);
    TailMeaning(again, cutoff);
    RemainingMeaning(Tail(records, cutoff), gone);
    forall c ensures c in Tail(again, cutoff) <==> c in Remaining(Tail(records, cutoff), gone) {
      if c.at <= cutoff {
        OldCandidateFollows(again, records, gone, restart, cutoff, c);
      }
    }
    hide Follows, UniqueIds, Tail, Remaining, Candidates;
    OneOrder(Tail(again, cutoff), Remaining(Tail(records, cutoff), gone));
  }

  function EndedByRestart(records: seq<Record>, restart: Option<int>): set<string> {
    if restart.Some? then LiveIds(records) else {}
  }

  lemma StaysNewer(again: seq<Record>, records: seq<Record>, gone: set<string>, restart: Option<int>, cutoff: int, r: Record)
    requires UniqueIds(records) && Follows(again, records, gone, restart) && (restart.Some? ==> restart.value > cutoff)
    requires gone <= Ids(Tail(records, cutoff)) && r in records
    requires if IsCandidate(r) then CandidateOf(r).at > cutoff else restart.Some? && r.status.Some? && Live(r.status.value)
    ensures r.id in NewerIds(again, cutoff)
  {
    if r.id in gone {
      GoneAreOld(records, cutoff, gone, r);
    }
    assert Later(r, restart) in again;
  }

  lemma WasNewer(again: seq<Record>, records: seq<Record>, gone: set<string>, restart: Option<int>, cutoff: int, id: string)
    requires Follows(again, records, gone, restart) && id in NewerIds(again, cutoff)
    ensures id in NewerIds(records, cutoff) || id in EndedByRestart(records, restart)
  {
    var x :| x in again && IsCandidate(x) && CandidateOf(x).at > cutoff && x.id == id;
    var r :| r in records && r.id !in gone && x == Later(r, restart);
  }

  lemma NewerIdsFollow(again: seq<Record>, records: seq<Record>, gone: set<string>, restart: Option<int>, cutoff: int, id: string)
    requires UniqueIds(records) && Follows(again, records, gone, restart) && (restart.Some? ==> restart.value > cutoff)
    requires gone <= Ids(Tail(records, cutoff))
    ensures id in NewerIds(again, cutoff) <==> id in NewerIds(records, cutoff) || id in EndedByRestart(records, restart)
  {
    hide Follows, UniqueIds, Tail;
    if id in NewerIds(again, cutoff) {
      WasNewer(again, records, gone, restart, cutoff, id);
    }
    if id in NewerIds(records, cutoff) {
      var r :| r in records && r.id == id && IsCandidate(r) && CandidateOf(r).at > cutoff;
      StaysNewer(again, records, gone, restart, cutoff, r);
    }
    if id in EndedByRestart(records, restart) {
      var r :| r in records && r.id == id && r.status.Some? && Live(r.status.value);
      StaysNewer(again, records, gone, restart, cutoff, r);
    }
  }

  lemma NewerApart(records: seq<Record>, restart: Option<int>, cutoff: int)
    requires UniqueIds(records)
    ensures NewerIds(records, cutoff) !! EndedByRestart(records, restart)
  {
    forall r, x | r in records && x in records && r.id == x.id ensures r == x {
      SameIdSameRecord(records, r, x);
    }
  }

  lemma NewerFollows(again: seq<Record>, records: seq<Record>, gone: set<string>, restart: Option<int>, cutoff: int)
    requires UniqueIds(records) && Follows(again, records, gone, restart) && (restart.Some? ==> restart.value > cutoff)
    requires gone <= Ids(Tail(records, cutoff))
    ensures |NewerIds(again, cutoff)| == |NewerIds(records, cutoff)| + |EndedByRestart(records, restart)|
  {
    var before, newer, live := NewerIds(records, cutoff), NewerIds(again, cutoff), EndedByRestart(records, restart);
    forall id ensures id in newer <==> id in before + live {
      NewerIdsFollow(again, records, gone, restart, cutoff, id);
    }
    NewerApart(records, restart, cutoff);
    assert newer == before + live;
  }

  /** What is gone from the end of a list is gone from the end of what remains. */
  lemma RemainingOfSlice(t: seq<Candidate>, j: nat, k: nat, gone: set<string>)
    requires k <= j <= |t| && DistinctIds(t) && gone <= Ids(t[j..])
    ensures j <= |Remaining(t, gone)| <= |t| && (j == |t| ==> gone == {} && |Remaining(t, gone)| == |t|)
    ensures Remaining(t[k..], gone) == Remaining(t, gone)[k..]
  {
    RemainingSplits(t, j, gone);
    RemainingSplits(t, k, gone);
    RemainingShorter(t, gone);
  }

  lemma {:induction false} RemainingShorter(cs: seq<Candidate>, gone: set<string>)
    ensures |Remaining(cs, gone)| <= |cs|
  {
    if cs != [] {
      RemainingShorter(cs[..|cs| - 1], gone);
    }
  }

  lemma ReselectedTail(again: seq<Record>, records: seq<Record>, gone: set<string>, restart: Option<int>, cutoff: int, keep: nat)
    requires UniqueIds(records) && Follows(again, records, gone, restart) && (restart.Some? ==> restart.value > cutoff)
    requires gone <= Ids(SelectExpired(records, cutoff, keep).expired)
    ensures var rest := Remaining(Tail(records, cutoff), gone);
            SelectExpired(again, cutoff, keep).expired
            == rest[Saved(keep, |NewerIds(records, cutoff)| + |EndedByRestart(records, restart)|, |rest|)..]
  {
    var t := Tail(records, cutoff);
    ExpiredOfTail(records, cutoff, keep);
    ExpiredOfTail(again, cutoff, keep);
    TailFollows(again, records, gone, restart, cutoff);
    forall id | id in gone ensures id in Ids(t) {
      var c :| c in SelectExpired(records, cutoff, keep).expired && c.id == id;
      assert c in t;
    }
    NewerFollows(again, records, gone, restart, cutoff);
  }

  /** What is selected again is the rest of what expired, exactly when none of q newer candidates costs a saved one its place. */
  predicate RestExactlyWhen(again: seq<Candidate>, expired: seq<Candidate>, tail: seq<Candidate>, gone: set<string>, keep: nat, m: nat, q: nat) {
    && again == Remaining(tail[Saved(keep, m + q, |tail|)..], gone)
    && (again == Remaining(expired, gone) <==> q == 0 || keep <= m || tail == [] || keep >= m + q + |tail|)
  }

  /** The same on lists: what expires of the rest once q more candidates are newer. */
  lemma RestAgain(t: seq<Candidate>, gone: set<string>, keep: nat, m: nat, q: nat, expired: seq<Candidate>, again: seq<Candidate>)
    requires DistinctIds(t) && gone <= Ids(expired) && expired == t[Saved(keep, m, |t|)..]
    requires again == Remaining(t, gone)[Saved(keep, m + q, |Remaining(t, gone)|)..]
    ensures RestExactlyWhen(again, expired, t, gone, keep, m, q)
  {
    var j, k := Saved(keep, m, |t|), Saved(keep, m + q, |t|);
    RemainingOfSlice(t, j, j, gone);
    RemainingOfSlice(t, j, k, gone);
    var rest := Remaining(t, gone);
    assert Saved(keep, m + q, |rest|) == k <= j;
    assert |rest[k..]| == |rest| - k && |rest[j..]| == |rest| - j;
  }

  /**
   * Selecting again, at the same time and with the same keep count, once a part of what
   * expired is gone. With no restart, or with no session live at the restart, exactly the
   * rest expires. Each session that the restart ended counts as one more newer one and
   * takes a place of the keep count, so the list may grow at its newer end: it is the rest
   * exactly if no session was live, or the keep count saved nothing, or still saves all.
   */
  lemma ReselectIsRest(again: seq<Record>, records: seq<Record>, gone: set<string>, restart: Option<int>, cutoff: int, keep: nat)
    requires UniqueIds(records) && Follows(again, records, gone, restart) && (restart.Some? ==> restart.value > cutoff)
    requires gone <= Ids(SelectExpired(records, cutoff, keep).expired)
    ensures RestExactlyWhen(
              SelectExpired(again, cutoff, keep).expired, SelectExpired(records, cutoff, keep).expired, Tail(records, cutoff),
              gone, keep, |NewerIds(records, cutoff)|, |EndedByRestart(records, restart)|)
  {
    var t := Tail(records, cutoff);
    var m, q := |NewerIds(records, cutoff)|, |EndedByRestart(records, restart)|;
    var expired, reselected := SelectExpired(records, cutoff, keep).expired, SelectExpired(again, cutoff, keep).expired;
    assert expired == t[Saved(keep, m, |t|)..] by {
      ExpiredOfTail(records, cutoff, keep);
    }
    assert reselected == Remaining(t, gone)[Saved(keep, m + q, |Remaining(t, gone)|)..] by {
      ReselectedTail(again, records, gone, restart, cutoff, keep);
    }
    assert DistinctIds(t) by {
      TailMeaning(records, cutoff);
    }
    RestAgain(t, gone, keep, m, q, expired, reselected);
  }

  lemma {:induction false} InWithout(records: seq<Record>, gone: set<string>, r: Record)
    ensures r in Without(records, gone) <==> r in records && r.id !in gone
  {
    if records != [] {
      var front := records[..|records| - 1];
      InWithout(front, gone, r);
      assert records == front + [records[|records| - 1]];
    }
  }

  lemma {:induction false} WithoutIsUnique(records: seq<Record>, gone: set<string>)
    requires UniqueIds(records)
    ensures UniqueIds(Without(records, gone))
  {
    if records != [] {
      var front := records[..|records| - 1];
      WithoutIsUnique(front, gone);
      forall r | r in Without(front, gone) ensures r.id != records[|records| - 1].id {
        InWithout(front, gone, r);
        var k :| 0 <= k < |front| && front[k] == r;
      }
    }
  }

  lemma WithoutFollows(records: seq<Record>, gone: set<string>)
    requires UniqueIds(records)
    ensures Follows(Without(records, gone), records, gone, None)
  {
    WithoutIsUnique(records, gone);
    forall r ensures r in Without(records, gone) <==> r in records && r.id !in gone {
      InWithout(records, gone, r);
    }
    forall r ensures Later(r, None) == r {}
  }

  lemma {:induction false} NothingRemains(cs: seq<Candidate>, gone: set<string>)
    requires Ids(cs) <= gone
    ensures Remaining(cs, gone) == []
  {
    if cs != [] {
      var front := cs[..|cs| - 1];
      assert Ids(front) <= Ids(cs) && cs[|cs| - 1].id in Ids(cs);
      NothingRemains(front, gone);
    }
  }

  /** Selecting again over the survivors expires nothing. */
  lemma ReselectExpiresNothing(records: seq<Record>, cutoff: int, keep: nat)
    requires UniqueIds(records)
    ensures SelectExpired(Without(records, Ids(SelectExpired(records, cutoff, keep).expired)), cutoff, keep).expired == []
  {
    var gone := Ids(SelectExpired(records, cutoff, keep).expired);
    WithoutFollows(records, gone);
    NothingRemains(SelectExpired(records, cutoff, keep).expired, gone);
    ReselectIsRest(Without(records, gone), records, gone, None, cutoff, keep);
  }
}
