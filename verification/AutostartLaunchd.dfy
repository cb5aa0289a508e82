/** Keeping definition bytes out of launchd's sight (agent_collab/daemon_autostart_launchd.py). */
module AutostartLaunchd {
  import opened Common
  import opened Units

  datatype Preserved = InSlot(slot: nat) | NothingToKeep | Failed

  /** As for systemd, but the last resort is always an error, which says that the bytes were lost. */
  method QuarantineDefinition(u: Units, expected: string, permitted: seq<Option<string>>)
    returns (r: Option<nat>, bytesLost: bool, ghost lastResort: bool)
    requires |u.slots| == |permitted| == 2
    modifies u`canonical, u`slots
    ensures OthersKept(old(u.slots), u.slots, permitted)
    ensures r.Some? ==> && r.value < 2 && Authorised(old(u.slots)[r.value], permitted[r.value])
                        && old(u.canonical).Some? && u.slots[r.value] == old(u.canonical) && old(u.canonical).value.content == expected
                        && u.canonical.None?
    ensures bytesLost ==> r.None? && lastResort && u.canonical.None?
    ensures lastResort ==> !u.alone || !u.filesWork || forall i :: 0 <= i < 2 ==> !Authorised(old(u.slots)[i], permitted[i])
    ensures u.alone && !lastResort ==> u.canonical == old(u.canonical) || old(u.canonical) in u.slots
  {
    var q;
    ghost var meddled, failed;
    q, lastResort, meddled, failed := u.QuarantineUnit(expected, permitted);
    r, bytesLost := if q.Moved? then Some(q.slot) else None, q.Unlinked?;
  }

  predicate Trusted(slot: Option<Entry>) { slot.Some? && slot.value.trusted }

  /** A slot that already holds the bytes. */
  function SlotHolding(slots: seq<Option<Entry>>, prior: string, i: nat): Option<nat>
    decreases |slots| - i
  {
    if i >= |slots| then None
    else if Trusted(slots[i]) && slots[i].value.content == prior then Some(i)
    else SlotHolding(slots, prior, i + 1)
  }

  /** The source overwrites this home's own recovery even where the snapshot does not permit it. */
  predicate Overwritable(slot: Option<Entry>, permitted: Option<string>) {
    slot.None? || (slot.value.trusted && (slot.value.owner.Current? || permitted == Some(slot.value.content)))
  }

  function SlotToWrite(slots: seq<Option<Entry>>, permitted: seq<Option<string>>, i: nat): Option<nat>
    requires |slots| == |permitted|
    decreases |slots| - i
  {
    if i >= |slots| then None
    else if Overwritable(slots[i], permitted[i]) then Some(i)
    else SlotToWrite(slots, permitted, i + 1)
  }

  /** Where prior bytes are kept: where they already are, else in the first slot that may be written. */
  function ChosenSlot(slots: seq<Option<Entry>>, permitted: seq<Option<string>>, prior: string): Option<nat>
    requires |slots| == |permitted|
  {
    var held := SlotHolding(slots, prior, 0);
    if held.Some? then held else SlotToWrite(slots, permitted, 0)
  }

  /**
   * Remove the canonical definition and keep the prior bytes in a recovery slot only: a slot
   * that is returned holds them, the canonical file is absent, and no other slot changed.
   */
  method PreservePriorBytesNonloadably(u: Units, prior: Option<string>, permitted: seq<Option<string>>) returns (r: Preserved)
    requires |u.slots| == |permitted| == 2
    modifies u`canonical, u`slots
    ensures |u.slots| == 2
    ensures r.InSlot? ==> && prior.Some? && r.slot < 2 && u.canonical.None?
                          && u.slots[r.slot].Some? && u.slots[r.slot].value.content == prior.value
                          && ChosenSlot(old(u.slots), permitted, prior.value) == Some(r.slot)
    ensures r.NothingToKeep? ==> prior.None? && u.canonical.None?
    ensures forall i :: 0 <= i < 2 && (prior.None? || ChosenSlot(old(u.slots), permitted, prior.value) != Some(i)) ==>
              u.slots[i] == old(u.slots)[i]
    ensures prior.Some? && ChosenSlot(old(u.slots), permitted, prior.value).None? ==> r.Failed?
  {
    var parses := u.Succeeds();
    if !parses {
      return Failed;
    }
    if u.canonical.Some? {
      var gone := u.UnlinkCanonical();
      var synced := u.Syncs();
      if !gone || !synced {
        return Failed;
      }
    }
    if prior.None? {
      return NothingToKeep;
    }
    parses := u.Succeeds();
    if !parses {
      return Failed;
    }
    for i := 0 to 2
      invariant SlotHolding(u.slots, prior.value, 0) == SlotHolding(u.slots, prior.value, i)
    {
      if u.slots[i].None? || !u.slots[i].value.trusted {
        continue;
      }
      if u.slots[i].value.content == prior.value {
        var private := u.Succeeds();
        return if private then InSlot(i) else Failed;
      }
    }
    for i := 0 to 2
      invariant SlotToWrite(u.slots, permitted, 0) == SlotToWrite(u.slots, permitted, i)
    {
      if u.slots[i].Some? {
        if !u.slots[i].value.trusted {
          continue;
        }
        if u.slots[i].value.owner != Current && permitted[i] != Some(u.slots[i].value.content) {
          continue;
        }
      }
      var written := u.WriteSlot(i, prior.value);
      return if written then InSlot(i) else Failed;
    }
    r := Failed;
  }

  lemma {:induction false} FirstWritable(slots: seq<Option<Entry>>, permitted: seq<Option<string>>, i: nat)
    requires |slots| == |permitted| && i <= |slots|
    ensures var w := SlotToWrite(slots, permitted, i);
            && (w.Some? ==> i <= w.value < |slots| && Overwritable(slots[w.value], permitted[w.value])
                            && forall j :: i <= j < w.value ==> !Overwritable(slots[j], permitted[j]))
            && (w.None? ==> forall j :: i <= j < |slots| ==> !Overwritable(slots[j], permitted[j]))
    decreases |slots| - i
  {
    if i < |slots| {
      FirstWritable(slots, permitted, i + 1);
    }
  }

  lemma {:induction false} FirstHolding(slots: seq<Option<Entry>>, prior: string, i: nat)
    requires i <= |slots|
    ensures var h := SlotHolding(slots, prior, i);
            && (h.Some? ==> i <= h.value < |slots| && Trusted(slots[h.value]) && slots[h.value].value.content == prior)
            && (h.None? ==> forall j :: i <= j < |slots| && Trusted(slots[j]) ==> slots[j].value.content != prior)
    decreases |slots| - i
  {
    if i < |slots| {
      FirstHolding(slots, prior, i + 1);
    }
  }

  /** This home's own recovery, with bytes that the snapshot does not name. */
  predicate OwnUnnamed(slot: Option<Entry>, permitted: Option<string>) {
    Trusted(slot) && slot.value.owner.Current? && permitted != Some(slot.value.content)
  }

  /**
   * Where no slot holds the bytes yet, preserving overwrites a slot that the snapshot does
   * not permit, and that quarantine would refuse, exactly when a recovery of this home that
   * the snapshot does not name comes before every permitted slot.
   */
  lemma PreserveIgnoresSnapshotExactlyWhen(slots: seq<Option<Entry>>, permitted: seq<Option<string>>, prior: string)
    requires |slots| == |permitted| && SlotHolding(slots, prior, 0).None?
    ensures var c := ChosenSlot(slots, permitted, prior);
            (c.Some? && c.value < |slots| && !Authorised(slots[c.value], permitted[c.value]))
            <==> exists i :: 0 <= i < |slots| && OwnUnnamed(slots[i], permitted[i])
                             && forall j :: 0 <= j < i ==> !Authorised(slots[j], permitted[j])
  {
    FirstWritable(slots, permitted, 0);
    var c := ChosenSlot(slots, permitted, prior);
    if c.Some? && !Authorised(slots[c.value], permitted[c.value]) {
      assert OwnUnnamed(slots[c.value], permitted[c.value]);
    }
  }

  /** A recovery of this home that appeared after the snapshot is overwritten. */
  lemma UnsnapshottedRecoveryOverwritten(prior: string, newer: string)
    requires prior != newer
    ensures var slots := [Some(Entry(newer, 1, Current, true)), None]; var permitted := [None, None];
            && ChosenSlot(slots, permitted, prior) == Some(0)
            && !Authorised(slots[0], permitted[0]) && AuthorizedSnapshot([None, None], true, None) == permitted
  {
    var slots := [Some(Entry(newer, 1, Current, true)), None];
    var permitted: seq<Option<string>> := [None, None];
    assert SlotHolding(slots, prior, 2).None?;
    assert SlotHolding(slots, prior, 1).None?;
    assert SlotHolding(slots, prior, 0).None?;
    assert AuthorizedSnapshot([None, None], true, None) == permitted;
  }
}
