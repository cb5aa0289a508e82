/**
 * Writing events to the session's file, one line each (agent_collab/logging.py), and
 * reading them back after a restart (agent_collab/daemon.py).
 */
module EventFile {
  import opened Common
  import opened Events
  import opened TextLines

  /** The event a line reads as; none for a blank line and for a line that is no JSON object. */
  function EventIn(line: string, read: string -> Option<Event>): seq<Event> {
    var text := Stripped(line);
    if text == "" || read(text).None? then [] else [read(text).value]
  }

  function Decoded(lines: seq<string>, read: string -> Option<Event>): seq<Event> {
    if lines == [] then []
    else Decoded(lines[..|lines| - 1], read) + EventIn(lines[|lines| - 1], read)
  }

  method LoadEventsFromJsonl(text: string, read: string -> Option<Event>) returns (events: seq<Event>)
    ensures events == Decoded(SplitLines(text), read)
  {
    var lines := SplitLines(text);
    events := [];
    for i := 0 to |lines|
      invariant events == Decoded(lines[..i], read)
    {
      assert lines[..i + 1][..i] == lines[..i];
      var line := Stripped(lines[i]);
      if line == "" {
        continue;
      }
      var payload := read(line);
      if payload.Some? {
        events := events + [payload.value];
      }
    }
    assert lines[..|lines|] == lines;
  }

  function Written(events: seq<Event>, write: Event -> string): (r: seq<string>)
    ensures |r| == |events| && forall i :: 0 <= i < |r| ==> r[i] == write(events[i])
  {
    seq(|events|, i requires 0 <= i < |events| => write(events[i]))
  }

  /** What is kept of the events: those whose line is one line to the reader. */
  function Whole(events: seq<Event>, write: Event -> string): seq<Event> {
    if events == [] then []
    else Whole(events[..|events| - 1], write) + (if OneLine(write(events[|events| - 1])) then [events[|events| - 1]] else [])
  }

  predicate Unreadable(line: string, read: string -> Option<Event>) {
    Stripped(line) == "" || read(Stripped(line)).None?
  }

  /** A fragment may read as an event, an empty object for one, but not as one of those that were written. */
  predicate Foreign(line: string, read: string -> Option<Event>, events: seq<Event>) {
    Unreadable(line, read) || read(Stripped(line)).value !in events
  }

  /** Reading undoes writing on whole lines, and no fragment of a broken line reads as one of the events. */
  predicate Codec(e: Event, write: Event -> string, read: string -> Option<Event>, events: seq<Event>) {
    && (OneLine(write(e)) ==> Stripped(write(e)) != "" && read(Stripped(write(e))) == Some(e))
    && (!OneLine(write(e)) ==> forall i :: 0 <= i < |Pieces(write(e))| ==> Foreign(Pieces(write(e))[i], read, events))
  }

  /** What is among the events, of what was read. */
  function Among(found: seq<Event>, events: seq<Event>): seq<Event> {
    if found == [] then []
    else
      Among(found[..|found| - 1], events) + (if found[|found| - 1] in events then [found[|found| - 1]] else [])
  }

  lemma {:induction false} AmongJoins(a: seq<Event>, b: seq<Event>, events: seq<Event>)
    ensures Among(a + b, events) == Among(a, events) + Among(b, events)
    decreases |b|
  {
    if b == [] {
      assert a + b == a;
    } else {
      var n := |b| - 1;
      var whole := a + b;
      AmongJoins(a, b[..n], events);
      assert whole[..|whole| - 1] == a + b[..n] && whole[|whole| - 1] == b[n];
      var x, y, z := Among(a, events), Among(b[..n], events), [b[n]];
      assert (x + y) + z == x + (y + z);
    }
  }

  lemma {:induction false} AmongItself(found: seq<Event>, events: seq<Event>)
    requires forall k :: 0 <= k < |found| ==> found[k] in events
    ensures Among(found, events) == found
  {
    if found != [] {
      var front := found[..|found| - 1];
      AmongItself(front, events);
      assert found == front + [found[|found| - 1]];
    }
  }

  lemma {:induction false} DecodedJoins(a: seq<string>, b: seq<string>, read: string -> Option<Event>)
    ensures Decoded(a + b, read) == Decoded(a, read) + Decoded(b, read)
    decreases |b|
  {
    hide EventIn;
    if b == [] {
      assert a + b == a;
    } else {
      var n := |b| - 1;
      DecodedJoins(a, b[..n], read);
      var whole := a + b;
      assert whole[..|whole| - 1] == a + b[..n] && whole[|whole| - 1] == b[n];
      var x, y, z := Decoded(a, read), Decoded(b[..n], read), EventIn(b[n], read);
      assert (x + y) + z == x + (y + z);
    }
  }

  lemma {:induction false} NothingAmong(lines: seq<string>, read: string -> Option<Event>, events: seq<Event>)
    requires forall i :: 0 <= i < |lines| ==> Foreign(lines[i], read, events)
    ensures Among(Decoded(lines, read), events) == []
  {
    if lines != [] {
      var front, last := lines[..|lines| - 1], lines[|lines| - 1];
      NothingAmong(front, read, events);
      var found := EventIn(last, read);
      AmongJoins(Decoded(front, read), found, events);
      assert Among(found, events) == [] by {
        assert found != [] ==> found[..0] == [];
      }
    }
  }

  lemma {:induction false} PiecesJoin(a: seq<string>, b: seq<string>)
    ensures AllPieces(a + b) == AllPieces(a) + AllPieces(b)
    decreases |a|
  {
    if a == [] {
      assert a + b == b;
    } else {
      PiecesJoin(a[1..], b);
      var whole := a + b;
      assert whole[1..] == a[1..] + b && whole[0] == a[0];
      var x, y, z := Pieces(a[0]), AllPieces(a[1..]), AllPieces(b);
      assert x + (y + z) == (x + y) + z;
    }
  }

  lemma {:induction false} DecodedPieces(e: Event, write: Event -> string, read: string -> Option<Event>, events: seq<Event>)
    requires Codec(e, write, read, events) && e in events
    ensures Among(Decoded(AllPieces([write(e)]), read), events) == if OneLine(write(e)) then [e] else []
  {
    var line := write(e);
    var one := [line];
    assert AllPieces(one) == Pieces(line) by {
      assert one[1..] == [];
    }
    if OneLine(line) {
      assert one[..0] == [];
      assert Decoded(one, read) == [e];
      AmongItself([e], events);
    } else {
      NothingAmong(Pieces(line), read, events);
    }
  }

  /** One more event is written: what is found among the events is what was found before, and the event if its line is whole. */
  lemma {:induction false} OneMoreWritten(part: seq<Event>, e: Event, write: Event -> string, read: string -> Option<Event>, events: seq<Event>)
    requires e in events && Codec(e, write, read, events)
    ensures Among(Decoded(AllPieces(Written(part + [e], write)), read), events)
            == Among(Decoded(AllPieces(Written(part, write)), read), events) + (if OneLine(write(e)) then [e] else [])
  {
    hide Decoded, AllPieces, Codec, Among, EventIn, OneLine;
    var front, last := Written(part, write), [write(e)];
    assert Written(part + [e], write) == front + last;
    OneMoreDecoded(front, write(e), read);
    AmongJoins(Decoded(AllPieces(front), read), Decoded(AllPieces(last), read), events);
    DecodedPieces(e, write, read, events);
  }

  lemma OneMoreWhole(part: seq<Event>, e: Event, write: Event -> string)
    ensures Whole(part + [e], write) == Whole(part, write) + (if OneLine(write(e)) then [e] else [])
  {
    assert (part + [e])[..|part|] == part;
  }

  predicate AllCoded(events: seq<Event>, write: Event -> string, read: string -> Option<Event>) {
    forall e :: e in events ==> Codec(e, write, read, events)
  }

  lemma NothingIsFound(write: Event -> string, read: string -> Option<Event>, events: seq<Event>)
    ensures Among(Decoded(AllPieces(Written([], write)), read), events) == Whole([], write)
  {}

  lemma CodedAt(events: seq<Event>, k: nat, write: Event -> string, read: string -> Option<Event>)
    requires k < |events| && AllCoded(events, write, read)
    ensures events[k] in events && Codec(events[k], write, read, events)
  {
    hide Codec;
    assert events[k] in events;
  }

  /** Exactly the events survive whose line holds none of the characters that the reader takes for line breaks. */
  lemma {:induction false} BrokenEventsAreLost(events: seq<Event>, k: nat, write: Event -> string, read: string -> Option<Event>)
    requires k <= |events| && AllCoded(events, write, read)
    ensures Among(Decoded(AllPieces(Written(events[..k], write)), read), events) == Whole(events[..k], write)
  {
    hide *;
    var part := events[..k];
    if k == 0 {
      NothingIsFound(write, read, events);
      assert part == [];
    } else {
      var front, last := events[..k - 1], events[k - 1];
      BrokenEventsAreLost(events, k - 1, write, read);
      CodedAt(events, k - 1, write, read);
      OneMoreWritten(front, last, write, read, events);
      OneMoreWhole(front, last, write);
      assert part == front + [last];
    }
  }

  lemma {:induction false} OneMoreDecoded(front: seq<string>, line: string, read: string -> Option<Event>)
    ensures Decoded(AllPieces(front + [line]), read) == Decoded(AllPieces(front), read) + Decoded(AllPieces([line]), read)
  {
    PiecesJoin(front, [line]);
    DecodedJoins(AllPieces(front), AllPieces([line]), read);
  }

  lemma {:induction false} WholeIsAll(events: seq<Event>, write: Event -> string)
    ensures |Whole(events, write)| <= |events|
    ensures |Whole(events, write)| == |events| <==> forall i :: 0 <= i < |events| ==> OneLine(write(events[i]))
    ensures (forall i :: 0 <= i < |events| ==> OneLine(write(events[i]))) ==> Whole(events, write) == events
  {
    if events != [] {
      var front := events[..|events| - 1];
      WholeIsAll(front, write);
      assert events == front + [events[|events| - 1]];
    }
  }

  /**
   * A restart reads back the events that were written, with their ids, if and only if no
   * line holds a character that the reader takes for a line break. JSON escapes the control
   * characters, but not U+0085, U+2028 and U+2029.
   */
  lemma {:induction false} ReadBackExactlyWhen(events: seq<Event>, write: Event -> string, read: string -> Option<Event>)
    requires AllCoded(events, write, read)
    ensures Decoded(SplitLines(Terminated(Written(events, write))), read) == events
            <==> forall i :: 0 <= i < |events| ==> OneLine(write(events[i]))
  {
    hide OneLine, Codec, Whole, AllPieces, Stripped, EventIn, SplitLines, Terminated;
    var found := Decoded(SplitLines(Terminated(Written(events, write))), read);
    SplitTerminated(Written(events, write));
    BrokenEventsAreLost(events, |events|, write, read);
    assert events[..|events|] == events;
    WholeIsAll(events, write);
    if found == events {
      AmongItself(events, events);
    }
    if forall i :: 0 <= i < |events| ==> OneLine(write(events[i])) {
      AllWhole(events, |events|, write, read);
    }
  }

  lemma {:induction false} AllWhole(events: seq<Event>, k: nat, write: Event -> string, read: string -> Option<Event>)
    requires k <= |events| && AllCoded(events, write, read) && forall i :: 0 <= i < |events| ==> OneLine(write(events[i]))
    ensures Decoded(AllPieces(Written(events[..k], write)), read) == events[..k]
  {
    hide OneLine, Stripped, EventIn;
    if k > 0 {
      AllWhole(events, k - 1, write, read);
      var front, last := events[..k - 1], events[k - 1];
      assert last in events && Codec(last, write, read, events);
      WholeLine(last, write, read, events);
      assert events[..k] == front + [last];
      assert Written(events[..k], write) == Written(front, write) + [write(last)];
      hide AllCoded, Codec, EventIn, OneLine, Stripped, Decoded, AllPieces, Written;
      OneMoreDecoded(Written(front, write), write(last), read);
    }
  }

  lemma {:induction false} WholeLine(e: Event, write: Event -> string, read: string -> Option<Event>, events: seq<Event>)
    requires OneLine(write(e)) && Codec(e, write, read, events)
    ensures Decoded(AllPieces([write(e)]), read) == [e]
  {
    var one := [write(e)];
    assert AllPieces(one) == one by {
      assert one[1..] == [];
    }
    assert one[..0] == [];
  }
}
