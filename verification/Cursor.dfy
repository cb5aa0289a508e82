/** Paging through a session's events by cursor (agent_collab/daemon.py). */
module Cursor {
  import opened Common
  import opened Events

  datatype View = Full | Digest

  /** What a request asks for: how many events to scan at most, and which kinds to keep. */
  datatype Ask = Ask(limit: Option<nat>, kinds: Option<set<EventKind>>, view: View)

  /** A delivered event; its absolute id is written on it only where position does not imply it. */
  datatype Item = Item(event: Event, id: Option<nat>)

  datatype Page = Page(cursor: nat, items: seq<Item>)

  datatype Located = Located(id: nat, event: Event)

  predicate ValidAsk(a: Ask) { a.limit.Some? ==> a.limit.value >= 1 }

  predicate Kept(e: Event, kinds: Option<set<EventKind>>) { kinds.Some? ==> e.kind in kinds.value }

  /** The events from one position up to another that a filter keeps, with their positions. */
  function Matching(events: seq<Event>, lo: nat, hi: nat, kinds: Option<set<EventKind>>): seq<Located>
    requires hi <= |events|
  {
    if hi <= lo then []
    else
      Matching(events, lo, hi - 1, kinds)
      + (if Kept(events[hi - 1], kinds) then [Located(hi - 1, events[hi - 1])] else [])
  }

  predicate Stamped(a: Ask) { a.kinds.Some? || a.view.Digest? }

  function Dress(found: seq<Located>, stamped: bool): (r: seq<Item>)
    ensures |r| == |found|
    ensures forall k :: 0 <= k < |r| ==> r[k] == Item(found[k].event, if stamped then Some(found[k].id) else None)
  {
    seq(|found|, k requires 0 <= k < |found| => Item(found[k].event, if stamped then Some(found[k].id) else None))
  }

  /** How a client reads ids: the one on the item, or the position counted from the request's cursor. */
  function ReadIds(items: seq<Item>, cursor: nat): (r: seq<Located>)
    ensures |r| == |items|
    ensures forall k :: 0 <= k < |r| ==>
              r[k] == Located(if items[k].id.Some? then items[k].id.value else cursor + k, items[k].event)
  {
    seq(|items|, k requires 0 <= k < |items| =>
      Located(if items[k].id.Some? then items[k].id.value else cursor + k, items[k].event))
  }

  function Clamp(cursor: nat, events: seq<Event>): (c: nat)
    ensures c <= |events| && c <= cursor
  {
    if cursor <= |events| then cursor else |events|
  }

  function ScanEnd(events: seq<Event>, cursor: nat, limit: Option<nat>): (e: nat)
    requires cursor <= |events|
    ensures cursor <= e <= |events|
  {
    if limit.None? || |events| <= cursor + limit.value then |events| else cursor + limit.value
  }

  /** The page a request gets, as a function of the events there are. */
  function PageOf(events: seq<Event>, cursor: nat, ask: Ask): Page {
    var lo := Clamp(cursor, events);
    var end := ScanEnd(events, lo, ask.limit);
    Page(end, Dress(Matching(events, lo, end, ask.kinds), Stamped(ask)))
  }

  method EventBatchFromSnapshot(events: seq<Event>, cursor: nat, ask: Ask) returns (page: Page)
    ensures page == PageOf(events, cursor, ask)
  {
    var lo := if cursor < |events| then cursor else |events|;
    var end := |events|;
    if ask.limit.Some? && lo + ask.limit.value < end {
      end := lo + ask.limit.value;
    }
    var projected := [];
    for i := lo to end
      invariant projected == Dress(Matching(events, lo, i, ask.kinds), Stamped(ask))
    {
      var e := events[i];
      if ask.kinds.Some? && e.kind !in ask.kinds.value {
        continue;
      }
      if ask.view == Digest || ask.kinds.Some? {
        projected := projected + [Item(e, Some(i))];
      } else {
        projected := projected + [Item(e, None)];
      }
    }
    page := Page(end, projected);
  }

  // ----- one page

  /** What is found lies in the range, matches, and comes in order. */
  lemma {:induction false} MatchingSound(events: seq<Event>, lo: nat, hi: nat, kinds: Option<set<EventKind>>, j: nat, k: nat)
    requires hi <= |events| && j <= k < |Matching(events, lo, hi, kinds)|
    ensures var m := Matching(events, lo, hi, kinds);
            && lo <= m[k].id < hi && m[k] == Located(m[k].id, events[m[k].id]) && Kept(m[k].event, kinds)
            && (j < k ==> m[j].id < m[k].id)
    decreases hi
  {
    var front := Matching(events, lo, hi - 1, kinds);
    if k < |front| {
      MatchingSound(events, lo, hi - 1, kinds, j, k);
    } else if j < k {
      MatchingSound(events, lo, hi - 1, kinds, j, j);
    }
  }

  /** Nothing in the range that matches is missed. */
  lemma {:induction false} MatchingComplete(events: seq<Event>, lo: nat, hi: nat, kinds: Option<set<EventKind>>, i: nat)
    requires lo <= i < hi <= |events| && Kept(events[i], kinds)
    ensures Located(i, events[i]) in Matching(events, lo, hi, kinds)
    decreases hi
  {
    if i < hi - 1 {
      MatchingComplete(events, lo, hi - 1, kinds, i);
    }
  }

  lemma {:induction false} UnfilteredIsContiguous(events: seq<Event>, lo: nat, hi: nat)
    requires lo <= hi <= |events|
    ensures var m := Matching(events, lo, hi, None);
            |m| == hi - lo && forall k :: 0 <= k < |m| ==> m[k] == Located(lo + k, events[lo + k])
    decreases hi
  {
    if lo < hi {
      UnfilteredIsContiguous(events, lo, hi - 1);
    }
  }

  /** Whatever the view and the filter, a client reads from a page exactly the events that match, each with its absolute id. */
  lemma PageIsExact(events: seq<Event>, cursor: nat, ask: Ask)
    requires ValidAsk(ask)
    ensures var page := PageOf(events, cursor, ask);
            && Clamp(cursor, events) <= page.cursor <= |events|
            && (cursor < |events| ==> cursor < page.cursor)
            && ReadIds(page.items, Clamp(cursor, events)) == Matching(events, Clamp(cursor, events), page.cursor, ask.kinds)
  {
    var lo := Clamp(cursor, events);
    var hi := PageOf(events, cursor, ask).cursor;
    if !Stamped(ask) {
      UnfilteredIsContiguous(events, lo, hi);
    }
    assert forall k :: 0 <= k < |Matching(events, lo, hi, ask.kinds)| ==>
      ReadIds(PageOf(events, cursor, ask).items, lo)[k] == Matching(events, lo, hi, ask.kinds)[k];
  }

  // ----- following

  /** Before each poll some events may be appended; every poll has its own limit and view. */
  datatype Poll = Poll(appended: seq<Event>, limit: Option<nat>, view: View)

  datatype Follower = Follower(events: seq<Event>, cursor: nat, got: seq<Located>)

  function PollOnce(f: Follower, p: Poll, kinds: Option<set<EventKind>>): Follower {
    var events := f.events + p.appended;
    var page := PageOf(events, f.cursor, Ask(p.limit, kinds, p.view));
    Follower(events, page.cursor, f.got + ReadIds(page.items, Clamp(f.cursor, events)))
  }

  function Follow(f: Follower, polls: seq<Poll>, kinds: Option<set<EventKind>>): Follower
    decreases |polls|
  {
    if polls == [] then f
    else PollOnce(Follow(f, polls[..|polls| - 1], kinds), polls[|polls| - 1], kinds)
  }

  predicate ValidPolls(polls: seq<Poll>) {
    forall k :: 0 <= k < |polls| && polls[k].limit.Some? ==> polls[k].limit.value >= 1
  }

  lemma {:induction false} MatchingJoins(
    events: seq<Event>, more: seq<Event>, lo: nat, mid: nat, hi: nat, kinds: Option<set<EventKind>>)
    requires lo <= mid <= |events| && mid <= hi <= |events + more|
    ensures Matching(events + more, lo, hi, kinds)
            == Matching(events, lo, mid, kinds) + Matching(events + more, mid, hi, kinds)
    decreases hi - mid, mid
  {
    if mid < hi {
      MatchingJoins(events, more, lo, mid, hi - 1, kinds);
    } else if lo < mid {
      MatchingJoins(events, more, lo, mid - 1, mid - 1, kinds);
      assert (events + more)[mid - 1] == events[mid - 1];
    }
  }

  /**
   * Following is exact: whatever is appended between polls and whatever the limits and
   * views, the pages together hold precisely the matching events between the first and the
   * last cursor, in order, with their absolute ids.
   */
  lemma {:induction false} FollowIsExact(events: seq<Event>, cursor: nat, polls: seq<Poll>, kinds: Option<set<EventKind>>)
    requires cursor <= |events| && ValidPolls(polls)
    ensures var f := Follow(Follower(events, cursor, []), polls, kinds);
            && events <= f.events && cursor <= f.cursor <= |f.events|
            && f.got == Matching(f.events, cursor, f.cursor, kinds)
    decreases |polls|
  {
    if polls != [] {
      var front := polls[..|polls| - 1];
      var p := polls[|polls| - 1];
      FollowIsExact(events, cursor, front, kinds);
      var f := Follow(Follower(events, cursor, []), front, kinds);
      PageIsExact(f.events + p.appended, f.cursor, Ask(p.limit, kinds, p.view));
      MatchingJoins(f.events, p.appended, cursor, f.cursor, PollOnce(f, p, kinds).cursor, kinds);
    }
  }

  /** A filter never stalls a follower: without new events, as many polls as events are left reach the end. */
  lemma {:induction false} FollowCatchesUp(events: seq<Event>, cursor: nat, polls: seq<Poll>, kinds: Option<set<EventKind>>)
    requires cursor <= |events| && ValidPolls(polls)
    requires forall k :: 0 <= k < |polls| ==> polls[k].appended == []
    ensures var f := Follow(Follower(events, cursor, []), polls, kinds);
            f.events == events && (f.cursor >= cursor + |polls| || f.cursor == |events|)
    decreases |polls|
  {
    if polls != [] {
      var front := polls[..|polls| - 1];
      var p := polls[|polls| - 1];
      FollowCatchesUp(events, cursor, front, kinds);
      FollowIsExact(events, cursor, front, kinds);
      var f := Follow(Follower(events, cursor, []), front, kinds);
      assert f.events + p.appended == events;
      PageIsExact(events, f.cursor, Ask(p.limit, kinds, p.view));
    }
  }
}
